/** The in-memory tables and the helpers of src/database.ts. Nothing here
    changes a table: the tables are passed in and the functions are pure. */
module Database {
  import opened Wrappers
  import opened Types
  import opened Arrays

  /** The seed rows the tables start from. */
  const SeedUsers: seq<User> := [
    User("u001", "user1", "user1@email.com", "123456"),
    User("u002", "user2", "user2@email.com", "abcdef")
  ]

  const SeedProducts: seq<Product> := [
    Product("p001", "macarrão", 10.5, "CATEGORY.MASSA", ""),
    Product("p002", "arroz", 3.0, "CATEGORY.GRAO", "")
  ]

  const SeedPurchases: seq<Purchase> := [
    Purchase("c001", "p002", 15.0, 1.0),
    Purchase("c002", "p002", 9.0, 0.0)
  ]

  // Columns of the tables, as the lookups compare them.

  function UserIds(users: seq<User>): seq<string>
  {
    seq(|users|, i requires 0 <= i < |users| => users[i].id)
  }

  function Emails(users: seq<User>): seq<string>
  {
    seq(|users|, i requires 0 <= i < |users| => users[i].email)
  }

  function ProductIds(products: seq<Product>): seq<string>
  {
    seq(|products|, i requires 0 <= i < |products| => products[i].id)
  }

  function BuyerIds(purchases: seq<Purchase>): seq<string>
  {
    seq(|purchases|, i requires 0 <= i < |purchases| => purchases[i].buyerId)
  }

  /** The uniqueness the sign-up checks are there to keep: no two users share
      an id, and no two share an email. */
  predicate UniqueUsers(users: seq<User>)
  {
    Distinct(UserIds(users)) && Distinct(Emails(users))
  }

  lemma SeedUsersUnique()
    ensures UniqueUsers(SeedUsers)
  {
  }

  /** The seed purchases name "p002", a product id, as their buyer: no seed
      purchase refers to an existing user. */
  lemma SeedPurchaseBuyersAreNotUsers()
    ensures forall b :: b in BuyerIds(SeedPurchases) ==> b !in UserIds(SeedUsers)
  {
  }

  /** `createUser` ignores its arguments and returns a fixed confirmation. */
  function CreateUser(id: string, email: string, password: string): (r: string)
    ensures r == "Cadastro realizado com sucesso"
  {
    "Cadastro realizado com sucesso"
  }

  /** `createProduct` ignores its arguments and returns a fixed confirmation. */
  function CreateProduct(id: string, name: string, category: Category): (r: string)
    ensures r == "Produto criado com sucesso"
  {
    "Produto criado com sucesso"
  }

  /** `getAllUser` hands back the user table itself. */
  function GetAllUser(users: seq<User>): (r: seq<User>)
    ensures r == users
  {
    users
  }

  /** `getAllProduct` hands back the product table itself. */
  function GetAllProduct(products: seq<Product>): (r: seq<Product>)
    ensures r == products
  {
    products
  }

  /** `getProductById`: `products.find(p => p.id === idToSearch)`. It yields
      the product at the first position whose id matches, and nothing (JS
      `undefined`) exactly when no product has that id. */
  function GetProductById(products: seq<Product>, idToSearch: string): (r: Option<Product>)
    ensures r.None? <==> idToSearch !in ProductIds(products)
    ensures r.Some? ==> r.value.id == idToSearch
    ensures r.Some? ==> r.value == products[FirstIndex(ProductIds(products), idToSearch)]
  {
    if products == [] then None
    else if products[0].id == idToSearch then
      assert ProductIds(products)[0] == idToSearch;
      Some(products[0])
    else
      assert ProductIds(products) == [products[0].id] + ProductIds(products[1..]);
      GetProductById(products[1..], idToSearch)
  }
}
