/** The record types of the shop (src/types.ts). */
module Types {

  /** The product categories; `createProduct` takes one and ignores it. */
  datatype Category = Accessories | ClothesAndShoes | Electronics | Massa | Grao

  datatype User = User(id: string, name: string, email: string, password: string)

  /** Prices are JavaScript numbers; they are kept exact as `real`, and the
      model only ever compares them with zero or copies them. */
  datatype Product = Product(id: string, name: string, price: real, description: string, imageUrl: string)

  datatype Purchase = Purchase(id: string, buyerId: string, totalPrice: real, paid: real)
}
