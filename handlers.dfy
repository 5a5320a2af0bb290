/** The request handlers of src/index.ts with the HTTP layer removed. Each
    handler takes the request's parameters and body fields, runs its chain of
    checks, and either fails with the message it throws or performs its write
    on the tables and succeeds with its confirmation. */
module Handlers {
  import opened Wrappers
  import opened Types
  import opened Arrays
  import opened Database
  import Password

  /** A field of a parsed JSON request body, as `typeof` tells fields apart.
      `Other` covers `null`, booleans, objects and arrays. JSON parsing never
      yields NaN, so a number is falsy exactly when it is zero; a literal too
      large for a double parses to Infinity, which a non-zero real stands for. */
  datatype Value = Undefined | Str(s: string) | Num(n: real) | Other

  predicate StringOrUndefined(v: Value) { v.Str? || v.Undefined? }

  predicate NumberOrUndefined(v: Value) { v.Num? || v.Undefined? }

  /** `v || fallback` for a string-or-undefined `v`: the empty string is falsy. */
  function StrOr(v: Value, fallback: string): string
    requires StringOrUndefined(v)
  {
    if v.Str? && v.s != "" then v.s else fallback
  }

  /** `v || fallback` for a number-or-undefined `v`: zero is falsy. */
  function NumOr(v: Value, fallback: real): real
    requires NumberOrUndefined(v)
  {
    if v.Num? && v.n != 0.0 then v.n else fallback
  }

  // The messages the handlers throw or send back.

  const IdNotString := "'id' deve ser uma string"
  const NameNotString := "'name' deve ser uma string"
  const EmailNotString := "'email' deve ser uma string"
  const PasswordNotString := "'password' deve ser uma string"
  const WeakPassword := "'password' deve possuir entre 8 e 12 caracteres, com letras maiúsculas e minúsculas e no mínimo um número e um caractere especial"
  const DuplicateUserId := "não deve ser possível criar mais de uma conta com a mesma id"
  const DuplicateEmail := "não deve ser possível criar mais de uma conta com o mesmo e-mail"
  const UserCreated := "Cadastro realizado com sucesso"
  const UserNotFound := "Usuário não encontrado"
  const UserDeleted := "User apagado com sucesso"
  const NewEmailNotString := "novo email deve ser uma string"
  const NewPasswordNotString := "nova senha deve ser uma string"
  const UserUpdated := "User atualizado com sucesso"
  const ProductMissing := "Produto não existe"
  const PriceNotNumber := "'price' deve ser uma number"
  const DescriptionNotString := "'description' deve ser uma number"
  const ImageUrlNotString := "'imageUrl' deve ser uma number"
  const DuplicateProductId := "não deve ser possível criar mais de uma produto com a mesma id"
  const ProductCreated := "Produto cadastrado com sucesso"
  const EditedProductNotFound := "produto não encontrado"
  const ProductUpdated := "produto apagado com sucesso"
  const ProductDeleted := "Produto apagado com sucesso"
  const ProductNotFound := "Produto não encontrado"
  const PurchaseIdNotString := "'id' da compra deve ser uma string"
  const BuyerIdNotString := "'buyerId' deve ser uma string"
  const TotalPriceNotNumber := "'totalPrice' deve ser uma number"
  const PaidNotNumber := "'paid' deve ser uma number"
  const UnknownBuyer := "id do usuário que fez a compra deve existir no array de usuários cadastrados"
  const PurchaseCreated := "Compra cadastrada com sucesso"
  const UserMissing := "Usuario não existe"
  const PurchaseMissing := "Compra não existe"

  /** The checks of POST /users, in the order the handler runs them: the four
      type checks, the password rule, the duplicate id, the duplicate email.
      It yields the record to insert, or the first check's failure. */
  function NewUser(users: seq<User>, id: Value, name: Value, email: Value, password: Value): (r: Result<User>)
    ensures r.Success? <==>
      && id.Str? && name.Str? && email.Str? && password.Str?
      && Password.Acceptable(password.s)
      && id.s !in UserIds(users) && email.s !in Emails(users)
    ensures r.Success? ==> r.value == User(id.s, name.s, email.s, password.s)
  {
    Password.PasswordRule(if password.Str? then password.s else "");
    if !id.Str? then Failure(IdNotString)
    else if !name.Str? then Failure(NameNotString)
    else if !email.Str? then Failure(EmailNotString)
    else if !password.Str? then Failure(PasswordNotString)
    else if !Password.Matches(password.s) then Failure(WeakPassword)
    else if id.s in UserIds(users) then Failure(DuplicateUserId)
    else if email.s in Emails(users) then Failure(DuplicateEmail)
    else Success(User(id.s, name.s, email.s, password.s))
  }

  /** The checks of POST /products: five type checks (the one on `id` throws
      the message about `password`), then the duplicate id. */
  function NewProduct(products: seq<Product>, id: Value, name: Value, price: Value, description: Value,
                      imageUrl: Value): (r: Result<Product>)
    ensures r.Success? <==>
      && id.Str? && name.Str? && price.Num? && description.Str? && imageUrl.Str?
      && id.s !in ProductIds(products)
    ensures r.Success? ==> r.value == Product(id.s, name.s, price.n, description.s, imageUrl.s)
    ensures id.Str? && name.Str? && price.Num? && description.Str? && imageUrl.Str? && id.s in ProductIds(products)
            ==> r == Failure(DuplicateProductId)
  {
    if !id.Str? then Failure(PasswordNotString)
    else if !name.Str? then Failure(NameNotString)
    else if !price.Num? then Failure(PriceNotNumber)
    else if !description.Str? then Failure(DescriptionNotString)
    else if !imageUrl.Str? then Failure(ImageUrlNotString)
    else if id.s in ProductIds(products) then Failure(DuplicateProductId)
    else Success(Product(id.s, name.s, price.n, description.s, imageUrl.s))
  }

  /** The checks of POST /purchases: four type checks, then the buyer must be
      an existing user. No other check guards the insert. */
  function NewPurchase(users: seq<User>, id: Value, buyer: Value, totalPrice: Value, paid: Value): (r: Result<Purchase>)
    ensures r.Success? <==>
      id.Str? && buyer.Str? && totalPrice.Num? && paid.Num? && buyer.s in UserIds(users)
    ensures r.Success? ==> r.value == Purchase(id.s, buyer.s, totalPrice.n, paid.n)
    ensures id.Str? && buyer.Str? && totalPrice.Num? && paid.Num? && buyer.s !in UserIds(users)
            ==> r == Failure(UnknownBuyer)
  {
    if !id.Str? then Failure(PurchaseIdNotString)
    else if !buyer.Str? then Failure(BuyerIdNotString)
    else if !totalPrice.Num? then Failure(TotalPriceNotNumber)
    else if !paid.Num? then Failure(PaidNotNumber)
    else if buyer.s !in UserIds(users) then Failure(UnknownBuyer)
    else Success(Purchase(id.s, buyer.s, totalPrice.n, paid.n))
  }

  /** The user as PUT /users/:id leaves it: email and password each take the
      new value when it is truthy. */
  function PatchUser(u: User, newEmail: Value, newPassword: Value): (r: User)
    requires StringOrUndefined(newEmail) && StringOrUndefined(newPassword)
    ensures r.id == u.id && r.name == u.name
    ensures newEmail.Str? && newEmail.s != "" ==> r.email == newEmail.s
    ensures newPassword.Str? && newPassword.s != "" ==> r.password == newPassword.s
  {
    u.(email := StrOr(newEmail, u.email), password := StrOr(newPassword, u.password))
  }

  /** The product as PUT /products/:id leaves it: name and price each take the
      new value when it is truthy. */
  function PatchProduct(p: Product, newName: Value, newPrice: Value): (r: Product)
    requires StringOrUndefined(newName) && NumberOrUndefined(newPrice)
    ensures r.id == p.id && r.description == p.description && r.imageUrl == p.imageUrl
    ensures newName.Str? && newName.s != "" ==> r.name == newName.s
    ensures newPrice.Num? && newPrice.n != 0.0 ==> r.price == newPrice.n
  {
    p.(name := StrOr(newName, p.name), price := NumOr(newPrice, p.price))
  }

  /** GET /users/:id/purchases as written: it throws "user does not exist"
      when the user DOES exist, and otherwise answers the first purchase whose
      buyer has the id. */
  function UserPurchaseAsWritten(users: seq<User>, purchases: seq<Purchase>, id: string): (r: Result<Purchase>)
    ensures r.Success? <==> id !in UserIds(users) && id in BuyerIds(purchases)
    ensures id !in UserIds(users) && id !in BuyerIds(purchases) ==> r == Failure(PurchaseMissing)
    ensures r.Success? ==> r.value.buyerId == id && r.value == purchases[FirstIndex(BuyerIds(purchases), id)]
  {
    if id in UserIds(users) then Failure(UserMissing)
    else
      var k := FirstIndex(BuyerIds(purchases), id);
      if k == -1 then Failure(PurchaseMissing)
      else
        assert BuyerIds(purchases)[k] == purchases[k].buyerId;
        Success(purchases[k])
  }

  /** GET /users/:id/purchases with the existence check the right way round:
      an unknown user is refused, and a known one gets the first purchase
      they made. */
  function UserPurchase(users: seq<User>, purchases: seq<Purchase>, id: string): (r: Result<Purchase>)
    ensures r.Success? <==> id in UserIds(users) && id in BuyerIds(purchases)
    ensures id !in UserIds(users) ==> r == Failure(UserMissing)
    ensures id in UserIds(users) && id !in BuyerIds(purchases) ==> r == Failure(PurchaseMissing)
    ensures r.Success? ==> r.value.buyerId == id && r.value == purchases[FirstIndex(BuyerIds(purchases), id)]
  {
    if id !in UserIds(users) then Failure(UserMissing)
    else
      var k := FirstIndex(BuyerIds(purchases), id);
      if k == -1 then Failure(PurchaseMissing)
      else
        assert BuyerIds(purchases)[k] == purchases[k].buyerId;
        Success(purchases[k])
  }

  /** The shop's tables, which the handlers read and change in place. */
  class Store {
    var users: seq<User>
    var products: seq<Product>
    var purchases: seq<Purchase>

    /** The tables as src/database.ts seeds them. */
    constructor ()
      ensures users == SeedUsers && products == SeedProducts && purchases == SeedPurchases
    {
      users := SeedUsers;
      products := SeedProducts;
      purchases := SeedPurchases;
    }

    /** GET /users: the whole user table. */
    method GetUsers() returns (r: seq<User>)
      ensures r == users
    {
      r := GetAllUser(users);
    }

    /** GET /users/:id: the first user with the id, or "not found". */
    method GetUser(id: string) returns (r: Result<User>)
      ensures r.Success? <==> id in UserIds(users)
      ensures r.Success? ==> r.value.id == id && r.value == users[FirstIndex(UserIds(users), id)]
      ensures r.Failure? ==> r.message == UserNotFound
    {
      var i := FirstIndex(UserIds(users), id);
      if i == -1 {
        return Failure(UserNotFound);
      }
      r := Success(users[i]);
    }

    /** POST /users: insert the new user once every check has passed. */
    method CreateUser(id: Value, name: Value, email: Value, password: Value) returns (r: Result<string>)
      modifies this`users
      ensures var v := NewUser(old(users), id, name, email, password);
        if v.Success? then r == Success(UserCreated) && users == old(users) + [v.value]
        else r == Failure(v.message) && users == old(users)
      ensures UniqueUsers(old(users)) ==> UniqueUsers(users)
    {
      var v := NewUser(users, id, name, email, password);
      if v.Failure? {
        return Failure(v.message);
      }
      if UniqueUsers(users) {
        SignUpKeepsUsersUnique(users, id, name, email, password);
      }
      users := users + [v.value];
      r := Success(UserCreated);
    }

    /** DELETE /users/:id: splice out the first user with the id. */
    method DeleteUser(id: string) returns (r: Result<string>)
      modifies this`users
      ensures var i := FirstIndex(UserIds(old(users)), id);
        if i == -1 then r == Failure(UserNotFound) && users == old(users)
        else r == Success(UserDeleted) && users == RemoveAt(old(users), i)
      ensures UniqueUsers(old(users)) ==> UniqueUsers(users) && id !in UserIds(users)
    {
      var i := FirstIndex(UserIds(users), id);
      if i >= 0 {
        if UniqueUsers(users) {
          DeleteKeepsUsersUnique(users, id);
        }
        users := RemoveAt(users, i);
        r := Success(UserDeleted);
      } else {
        r := Failure(UserNotFound);
      }
    }

    /** PUT /users/:id: type-check the new email and password, find the user,
        then overwrite its email and its password, each only when the new
        value is truthy. */
    method EditUser(id: string, newEmail: Value, newPassword: Value) returns (r: Result<string>)
      modifies this`users
      ensures !StringOrUndefined(newEmail) ==> r == Failure(NewEmailNotString) && users == old(users)
      ensures StringOrUndefined(newEmail) && !StringOrUndefined(newPassword) ==>
                r == Failure(NewPasswordNotString) && users == old(users)
      ensures StringOrUndefined(newEmail) && StringOrUndefined(newPassword) ==>
                var i := FirstIndex(UserIds(old(users)), id);
                if i == -1 then r == Failure(UserNotFound) && users == old(users)
                else r == Success(UserUpdated) && users == old(users)[i := PatchUser(old(users)[i], newEmail, newPassword)]
      ensures Distinct(UserIds(old(users))) ==> Distinct(UserIds(users))
    {
      if !StringOrUndefined(newEmail) {
        return Failure(NewEmailNotString);
      }
      if !StringOrUndefined(newPassword) {
        return Failure(NewPasswordNotString);
      }
      var i := FirstIndex(UserIds(users), id);
      if i == -1 {
        return Failure(UserNotFound);
      }
      var u := users[i];
      u := u.(email := StrOr(newEmail, u.email));
      u := u.(password := StrOr(newPassword, u.password));
      EditKeepsUserIds(users, i, newEmail, newPassword);
      users := users[i := u];
      r := Success(UserUpdated);
    }

    /** GET /products: the whole product table. */
    method GetProducts() returns (r: seq<Product>)
      ensures r == products
    {
      r := GetAllProduct(products);
    }

    /** GET /products/:id: the first product with the id, or "does not exist". */
    method GetProduct(id: string) returns (r: Result<Product>)
      ensures r.Success? <==> id in ProductIds(products)
      ensures r.Success? ==> r.value.id == id && r.value == products[FirstIndex(ProductIds(products), id)]
      ensures r.Failure? ==> r.message == ProductMissing
    {
      var found := GetProductById(products, id);
      if found.None? {
        return Failure(ProductMissing);
      }
      r := Success(found.value);
    }

    /** POST /products: insert the new product once every check has passed. */
    method CreateProduct(id: Value, name: Value, price: Value, description: Value, imageUrl: Value)
      returns (r: Result<string>)
      modifies this`products
      ensures var v := NewProduct(old(products), id, name, price, description, imageUrl);
        if v.Success? then r == Success(ProductCreated) && products == old(products) + [v.value]
        else r == Failure(v.message) && products == old(products)
      ensures Distinct(ProductIds(old(products))) ==> Distinct(ProductIds(products))
    {
      var v := NewProduct(products, id, name, price, description, imageUrl);
      if v.Failure? {
        return Failure(v.message);
      }
      NewProductKeepsIdsDistinct(products, v.value);
      products := products + [v.value];
      r := Success(ProductCreated);
    }

    /** PUT /products/:id: type-check the new name and price (with the
        messages about `password` and `name`), find the product, then
        overwrite its name and its price, each only when the new value is
        truthy. */
    method EditProduct(id: string, newName: Value, newPrice: Value) returns (r: Result<string>)
      modifies this`products
      ensures !StringOrUndefined(newName) ==> r == Failure(PasswordNotString) && products == old(products)
      ensures StringOrUndefined(newName) && !NumberOrUndefined(newPrice) ==>
                r == Failure(NameNotString) && products == old(products)
      ensures StringOrUndefined(newName) && NumberOrUndefined(newPrice) ==>
                var i := FirstIndex(ProductIds(old(products)), id);
                if i == -1 then r == Failure(EditedProductNotFound) && products == old(products)
                else r == Success(ProductUpdated) && products == old(products)[i := PatchProduct(old(products)[i], newName, newPrice)]
    {
      if !StringOrUndefined(newName) {
        return Failure(PasswordNotString);
      }
      if !NumberOrUndefined(newPrice) {
        return Failure(NameNotString);
      }
      var i := FirstIndex(ProductIds(products), id);
      if i == -1 {
        return Failure(EditedProductNotFound);
      }
      var p := products[i];
      p := p.(name := StrOr(newName, p.name));
      p := p.(price := NumOr(newPrice, p.price));
      products := products[i := p];
      r := Success(ProductUpdated);
    }

    /** DELETE /products/:id: splice out the first product with the id. */
    method DeleteProduct(id: string) returns (r: Result<string>)
      modifies this`products
      ensures var i := FirstIndex(ProductIds(old(products)), id);
        if i == -1 then r == Failure(ProductNotFound) && products == old(products)
        else r == Success(ProductDeleted) && products == RemoveAt(old(products), i)
    {
      var i := FirstIndex(ProductIds(products), id);
      if i >= 0 {
        products := RemoveAt(products, i);
        r := Success(ProductDeleted);
      } else {
        r := Failure(ProductNotFound);
      }
    }

    /** GET /purchases: the whole purchase table. */
    method GetPurchases() returns (r: seq<Purchase>)
      ensures r == purchases
    {
      r := purchases;
    }

    /** GET /users/:id/purchases, with its existence check corrected. */
    method GetUserPurchase(id: string) returns (r: Result<Purchase>)
      ensures r.Success? <==> id in UserIds(users) && id in BuyerIds(purchases)
      ensures id !in UserIds(users) ==> r == Failure(UserMissing)
      ensures id in UserIds(users) && id !in BuyerIds(purchases) ==> r == Failure(PurchaseMissing)
      ensures r.Success? ==> r.value.buyerId == id && r.value == purchases[FirstIndex(BuyerIds(purchases), id)]
    {
      r := UserPurchase(users, purchases, id);
    }

    /** POST /purchases: insert the purchase once its buyer is known to exist. */
    method CreatePurchase(id: Value, buyer: Value, totalPrice: Value, paid: Value) returns (r: Result<string>)
      modifies this`purchases
      ensures var v := NewPurchase(users, id, buyer, totalPrice, paid);
        if v.Success? then r == Success(PurchaseCreated) && purchases == old(purchases) + [v.value]
        else r == Failure(v.message) && purchases == old(purchases)
      ensures BuyersAreUsers(old(purchases), users) ==> BuyersAreUsers(purchases, users)
    {
      var v := NewPurchase(users, id, buyer, totalPrice, paid);
      if v.Failure? {
        return Failure(v.message);
      }
      purchases := purchases + [v.value];
      r := Success(PurchaseCreated);
    }
  }

  /** Every purchase names an existing user as its buyer. */
  predicate BuyersAreUsers(purchases: seq<Purchase>, users: seq<User>)
  {
    forall p :: p in purchases ==> p.buyerId in UserIds(users)
  }

  // Properties of the handlers.

  /** Sign-up fails on a taken id whatever the email: the id check runs
      before the email check. */
  lemma SignUpRejectsTakenId(users: seq<User>, id: string, name: string, email: string, password: string)
    requires Password.Matches(password) && id in UserIds(users)
    ensures NewUser(users, Str(id), Str(name), Str(email), Str(password)) == Failure(DuplicateUserId)
  {
  }

  /** Sign-up with a fresh id fails on a taken email. */
  lemma SignUpRejectsTakenEmail(users: seq<User>, id: string, name: string, email: string, password: string)
    requires Password.Matches(password) && id !in UserIds(users) && email in Emails(users)
    ensures NewUser(users, Str(id), Str(name), Str(email), Str(password)) == Failure(DuplicateEmail)
  {
  }

  /** Neither seed user's password passes the sign-up rule. */
  lemma SeedPasswordsFailRule()
    ensures forall u :: u in SeedUsers ==> !Password.Matches(u.password)
  {
  }

  /** A successful sign-up keeps user ids and emails unique. */
  lemma SignUpKeepsUsersUnique(users: seq<User>, id: Value, name: Value, email: Value, password: Value)
    requires UniqueUsers(users) && NewUser(users, id, name, email, password).Success?
    ensures UniqueUsers(users + [NewUser(users, id, name, email, password).value])
  {
    var u := NewUser(users, id, name, email, password).value;
    assert UserIds(users + [u]) == UserIds(users) + [u.id];
    assert Emails(users + [u]) == Emails(users) + [u.email];
    DistinctAppend(UserIds(users), u.id);
    DistinctAppend(Emails(users), u.email);
  }

  lemma UsersRemoveAt(users: seq<User>, i: nat)
    requires i < |users|
    ensures UserIds(RemoveAt(users, i)) == RemoveAt(UserIds(users), i)
    ensures Emails(RemoveAt(users, i)) == RemoveAt(Emails(users), i)
  {
  }

  /** Deleting a user from a table with unique ids and emails keeps them
      unique, and the id is gone afterwards. */
  lemma DeleteKeepsUsersUnique(users: seq<User>, id: string)
    requires UniqueUsers(users) && id in UserIds(users)
    ensures var r := RemoveAt(users, FirstIndex(UserIds(users), id));
      UniqueUsers(r) && id !in UserIds(r)
  {
    var i := FirstIndex(UserIds(users), id);
    UsersRemoveAt(users, i);
    DistinctRemoveAt(UserIds(users), i);
    DistinctRemoveAt(Emails(users), i);
  }

  /** Editing the user at position `i` changes that entry only, and never its
      id or name, so the id column is the same before and after. */
  lemma EditKeepsUserIds(users: seq<User>, i: nat, newEmail: Value, newPassword: Value)
    requires i < |users| && StringOrUndefined(newEmail) && StringOrUndefined(newPassword)
    ensures var r := users[i := PatchUser(users[i], newEmail, newPassword)];
      && UserIds(r) == UserIds(users)
      && r[i].id == users[i].id && r[i].name == users[i].name
      && forall j :: 0 <= j < |users| && j != i ==> r[j] == users[j]
  {
  }

  /** The email and the password each become the new value when it is a
      non-empty string, and keep their old value when it is absent or "". */
  lemma PatchUserFields(u: User, newEmail: Value, newPassword: Value)
    requires StringOrUndefined(newEmail) && StringOrUndefined(newPassword)
    ensures var r := PatchUser(u, newEmail, newPassword);
      && r.id == u.id && r.name == u.name
      && (r.email == if newEmail.Str? && newEmail.s != "" then newEmail.s else u.email)
      && (r.password == if newPassword.Str? && newPassword.s != "" then newPassword.s else u.password)
  {
  }

  /** An edit with nothing truthy in it leaves the user as it was, and
      applying the same edit twice is the same as applying it once. */
  lemma PatchUserNoOpAndIdempotent(u: User, newEmail: Value, newPassword: Value)
    requires StringOrUndefined(newEmail) && StringOrUndefined(newPassword)
    ensures !(newEmail.Str? && newEmail.s != "") && !(newPassword.Str? && newPassword.s != "") ==>
              PatchUser(u, newEmail, newPassword) == u
    ensures PatchUser(PatchUser(u, newEmail, newPassword), newEmail, newPassword) == PatchUser(u, newEmail, newPassword)
  {
  }

  /** Editing emails is not checked for duplicates: on the seed table, giving
      u002 the email of u001 leaves two users with one email. */
  lemma EditCanDuplicateEmail()
    ensures UniqueUsers(SeedUsers)
    ensures !UniqueUsers(SeedUsers[1 := PatchUser(SeedUsers[1], Str("user1@email.com"), Undefined)])
  {
    var r := SeedUsers[1 := PatchUser(SeedUsers[1], Str("user1@email.com"), Undefined)];
    assert Emails(r)[0] == Emails(r)[1];
  }

  /** Name and price are replaced only by truthy values: a price of 0 or an
      absent price, and an empty or absent name, keep the old value; id,
      description and image never change. */
  lemma PatchProductFields(p: Product, newName: Value, newPrice: Value)
    requires StringOrUndefined(newName) && NumberOrUndefined(newPrice)
    ensures var r := PatchProduct(p, newName, newPrice);
      && r.id == p.id && r.description == p.description && r.imageUrl == p.imageUrl
      && (r.name == if newName.Str? && newName.s != "" then newName.s else p.name)
      && (r.price == if newPrice.Num? && newPrice.n != 0.0 then newPrice.n else p.price)
    ensures PatchProduct(p, newName, Num(0.0)).price == PatchProduct(p, newName, Undefined).price == p.price
  {
  }

  /** Editing the product at position `i` leaves every other product as it
      was and keeps the id column. */
  lemma EditKeepsOtherProducts(products: seq<Product>, i: nat, newName: Value, newPrice: Value)
    requires i < |products| && StringOrUndefined(newName) && NumberOrUndefined(newPrice)
    ensures var r := products[i := PatchProduct(products[i], newName, newPrice)];
      && ProductIds(r) == ProductIds(products)
      && forall j :: 0 <= j < |products| && j != i ==> r[j] == products[j]
  {
  }

  /** Inserting a product whose id is not yet taken keeps ids distinct. */
  lemma NewProductKeepsIdsDistinct(products: seq<Product>, p: Product)
    requires p.id !in ProductIds(products)
    ensures Distinct(ProductIds(products)) ==> Distinct(ProductIds(products + [p]))
  {
    assert ProductIds(products + [p]) == ProductIds(products) + [p.id];
    if Distinct(ProductIds(products)) {
      DistinctAppend(ProductIds(products), p.id);
    }
  }

  /** A purchase is only ever inserted with an existing buyer, so a table in
      which every buyer is a user stays that way. */
  lemma NewPurchaseKeepsBuyersUsers(users: seq<User>, purchases: seq<Purchase>, id: Value, buyer: Value,
                                    totalPrice: Value, paid: Value)
    requires BuyersAreUsers(purchases, users)
    requires NewPurchase(users, id, buyer, totalPrice, paid).Success?
    ensures BuyersAreUsers(purchases + [NewPurchase(users, id, buyer, totalPrice, paid).value], users)
  {
  }

  /** As written, GET /users/:id/purchases refuses every existing user. */
  lemma AsWrittenRefusesExistingUsers(users: seq<User>, purchases: seq<Purchase>, id: string)
    requires id in UserIds(users)
    ensures UserPurchaseAsWritten(users, purchases, id) == Failure(UserMissing)
    ensures UserPurchase(users, purchases, id) != Failure(UserMissing)
  {
  }

  /** On the seed tables, as written: user u001 is refused as unknown, while
      the product id p002 is served a purchase. */
  lemma AsWrittenOnSeed()
    ensures UserPurchaseAsWritten(SeedUsers, SeedPurchases, "u001") == Failure(UserMissing)
    ensures UserPurchaseAsWritten(SeedUsers, SeedPurchases, "p002") == Success(SeedPurchases[0])
    ensures UserPurchase(SeedUsers, SeedPurchases, "p002") == Failure(UserMissing)
  {
    assert UserIds(SeedUsers)[0] == "u001";
    assert BuyerIds(SeedPurchases)[0] == "p002";
  }
}
