# labecommerce: the shop's table rules, modelled in Dafny

This project models the business rules of a small e-commerce backend. The
backend keeps three tables: users, products and purchases. Its HTTP handlers
sign users up, edit them and delete them. They also create, edit and delete
products, and record purchases. Each handler runs a chain of checks, such as
type checks on the request body, the password rule, duplicate-id and
duplicate-email checks, and a check that the buyer exists. After the checks
it writes to a table. It answers with a confirmation, or with the message of
the first check that failed.

Layout:

- `types.dfy` (`Types`): the `User`, `Product` and `Purchase` records and the
  category enum.
- `wrappers.dfy` (`Wrappers`): `Option`, and `Result`, whose `Failure(message)`
  stands for an error thrown and caught by the handler.
- `arrays.dfy` (`Arrays`): the array operations the handlers use: `findIndex`
  (and `find`) by equality, and `splice(i, 1)`.
- `password.dfy` (`Password`): the sign-up password regular expression, built
  piece by piece (its four lookaheads and `.{8,12}$`). A lemma proves it
  equal to the plain-words rule.
- `database.dfy` (`Database`): the seed tables and the pure helpers of
  `src/database.ts`.
- `handlers.dfy` (`Handlers`): the handlers of `src/index.ts`. The class
  `Store` holds the three tables as sequence fields. Its methods change them
  in place, as the handlers do. Pure functions give the check chains of the
  create handlers and the field-by-field edits, and lemmas state the rules
  about them.

Request bodies are modelled by `Handlers.Value`, which has one case for each
answer `typeof` can give here: `undefined`, `string`, `number`, or anything
else. Numbers are exact `real`s. JSON parsing never yields `NaN`, so a
number is falsy exactly when it is zero. A numeric literal too large for a
double parses to `Infinity`. That value is truthy, and the model stands for
it by a non-zero real, so only the stored value differs.

What the model shows about the code:

- For requests that do not overlap, sign-up keeps user ids and emails unique,
  and so does delete. Editing a
  user does not check the new email, so an edit can give two users the same
  email (`Handlers.EditCanDuplicateEmail`).
- Neither seed user's password would pass the sign-up rule.
- Both seed purchases name `p002`, which is a product id, as their buyer.
- The edit handlers keep the old value whenever the new one is falsy: absent,
  `""`, or a price of `0`. An empty string or a zero price can never be set.
- Some thrown messages name the wrong field. The model keeps them as written.
  POST /products checks the `id` type but reports `'password'`. PUT
  /products/:id reports `'password'` for the name check and `'name'` for the
  price check.
- PUT /products/:id answers "produto apagado com sucesso" ("deleted"), as
  written.

Purchase creation has no line items, no recomputed total price, no check
that the purchase id is free and no typed errors. It checks the field types
and the buyer, then inserts. No handler requires a product price above zero.

## Model

| member | source | states |
|---|---|---|
| Arrays.FirstIndex | src/index.ts:151 | `findIndex` by id: -1 exactly when no entry has the id; otherwise the entry there has the id and no earlier entry has it |
| Arrays.RemoveAt | src/index.ts:154 | `splice(i, 1)` drops entry `i` only: one entry shorter, earlier entries unchanged, later ones shifted down by one, multiset minus that entry |
| Password.Matches | src/index.ts:99 | the password regex, built from its four lookaheads and `.{8,12}$`; a password it matches has 8 to 12 characters and no line break |
| Password.PasswordRule | src/index.ts:99-101 | the password regex matches iff the password has 8 to 12 characters, no line break, and at least one lower-case letter, one upper-case letter, one digit and one character that is neither a letter nor a digit |
| Password.LineBreakRejected | src/index.ts:99 | a line break anywhere makes the password fail, since `.` does not match it |
| Password.ExampleAccepted | src/index.ts:99 | a password of the right shape ("Labe2023!") is accepted |
| Database.SeedUsersUnique | src/database.ts:3-16 | the seed users have pairwise distinct ids and pairwise distinct emails |
| Database.SeedPurchaseBuyersAreNotUsers | src/database.ts:35-48 | no seed purchase's buyer id is the id of a seed user |
| Database.CreateUser | src/database.ts:51-54 | `createUser` returns "Cadastro realizado com sucesso" whatever its arguments |
| Database.CreateProduct | src/database.ts:61-63 | `createProduct` returns "Produto criado com sucesso" whatever its arguments |
| Database.GetAllUser | src/database.ts:56-58 | returns the user table as it is |
| Database.GetAllProduct | src/database.ts:65-67 | returns the product table as it is |
| Database.GetProductById | src/database.ts:69-72 | `find` by id: undefined exactly when no product has the id, otherwise the product at the first position whose id matches |
| Handlers.NewUser | src/index.ts:87-121 | sign-up checks pass iff all four fields are strings, the password passes the rule, the id is not taken and the email is not taken; on success the record is built from exactly those fields |
| Handlers.NewProduct | src/index.ts:304-329 | product checks pass iff id, name, description and image URL are strings, price is a number and the id is not taken; a well-typed body with a taken id fails with the duplicate-id message |
| Handlers.NewPurchase | src/index.ts:490-512 | purchase checks pass iff id and buyer are strings, total price and paid are numbers and the buyer is an existing user id; a well-typed body with an unknown buyer fails with the unknown-buyer message |
| Handlers.PatchUser | src/index.ts:194-195 | the edited user keeps its id and name; email and password each become the new value when it is a non-empty string |
| Handlers.PatchProduct | src/index.ts:379-380 | the edited product keeps its id, description and image; name and price each become the new value when it is truthy (a non-empty string, a non-zero number) |
| Handlers.UserPurchaseAsWritten | src/index.ts:451-465 | the lookup as written succeeds iff the id is NOT a user id and some purchase has it as buyer, answering the first purchase with that buyer; a non-user id with no purchase fails with "Compra não existe" |
| Handlers.UserPurchase | src/index.ts:451-465 | user-purchase lookup with the existence check corrected: an unknown user fails with "Usuario não existe" and a known user with no purchase with "Compra não existe"; it succeeds iff the user exists and has a purchase, and then answers the first purchase with that buyer |
| Handlers.Store.constructor | src/database.ts:3-48 | the store starts from the seed users, products and purchases |
| Handlers.Store.GetUsers | src/index.ts:27-34 | GET /users answers the whole user table |
| Handlers.Store.GetUser | src/index.ts:51-60 | GET /users/:id succeeds iff some user has the id, with the first such user; otherwise it fails with "Usuário não encontrado" |
| Handlers.Store.CreateUser | src/index.ts:78-129 | POST /users appends exactly the new user when every check passes and otherwise leaves the table unchanged with the first failing check's message; unique ids and emails stay unique |
| Handlers.Store.DeleteUser | src/index.ts:147-158 | DELETE /users/:id removes exactly the first user with the id, others kept in order; an unknown id fails with "Usuário não encontrado" and changes nothing; uniqueness is kept and the id is gone |
| Handlers.Store.EditUser | src/index.ts:175-197 | PUT /users/:id fails before any change on a non-string email, a non-string password, or an unknown id (in that order); otherwise only the first matching user changes, by the truthy-or-keep edit; distinct ids stay distinct |
| Handlers.Store.GetProducts | src/index.ts:217-219 | GET /products answers the whole product table |
| Handlers.Store.GetProduct | src/index.ts:268-277 | GET /products/:id succeeds iff some product has the id, with the first such product; otherwise it fails with "Produto não existe" |
| Handlers.Store.CreateProduct | src/index.ts:295-337 | POST /products appends exactly the new product when every check passes, otherwise changes nothing and fails with the first failing check's message; distinct ids stay distinct |
| Handlers.Store.EditProduct | src/index.ts:354-383 | PUT /products/:id fails before any change on a non-string name, a non-number price, or an unknown id; otherwise only the first matching product changes, by the truthy-or-keep edit of name and price |
| Handlers.Store.DeleteProduct | src/index.ts:400-411 | DELETE /products/:id removes exactly the first product with the id; an unknown id fails with "Produto não encontrado" and changes nothing |
| Handlers.Store.GetPurchases | src/index.ts:430-433 | GET /purchases answers the whole purchase table |
| Handlers.Store.GetUserPurchase | src/index.ts:451-465 | GET /users/:id/purchases (check corrected) succeeds iff the user exists and has a purchase, answering the first one; an unknown user fails with "Usuario não existe" and a known user with no purchase with "Compra não existe" |
| Handlers.Store.CreatePurchase | src/index.ts:482-523 | POST /purchases appends exactly the new purchase when the types check and the buyer exists, and otherwise changes nothing; a table whose buyers are all users stays so (the seed table is not such a table, and deleting a user can break it, so this is not an invariant of the running store) |
| Handlers.SeedPasswordsFailRule | src/database.ts:3-16 | neither seed user's password passes the sign-up password rule |
| Handlers.SignUpRejectsTakenId | src/index.ts:104-110 | sign-up with a taken id fails with the duplicate-id message whatever the email: the id check comes first |
| Handlers.SignUpRejectsTakenEmail | src/index.ts:113-119 | sign-up with a fresh id and a taken email fails with the duplicate-email message |
| Handlers.SignUpKeepsUsersUnique | src/index.ts:103-127 | inserting a user that passed the checks keeps user ids and emails pairwise distinct |
| Handlers.DeleteKeepsUsersUnique | src/index.ts:151-154 | deleting from a table with unique ids and emails keeps them unique and leaves no user with the deleted id |
| Handlers.EditKeepsUserIds | src/index.ts:189-195 | editing the matched user changes that entry only and never its id or name; the id column is unchanged |
| Handlers.PatchUserFields | src/index.ts:194-195 | email and password each become the new value when it is a non-empty string and keep the old one when it is absent or "" |
| Handlers.PatchUserNoOpAndIdempotent | src/index.ts:194-195 | an edit with no truthy value leaves the user unchanged; applying the same edit twice equals applying it once |
| Handlers.EditCanDuplicateEmail | src/index.ts:189-195 | the edit does not check emails: on the seed table it can leave two users with one email |
| Handlers.PatchProductFields | src/index.ts:379-380 | name and price are replaced only by truthy values (a price of 0 or absent keeps the old price); id, description and image never change |
| Handlers.EditKeepsOtherProducts | src/index.ts:374-380 | editing the matched product leaves every other product unchanged and keeps the id column |
| Handlers.NewProductKeepsIdsDistinct | src/index.ts:320-335 | inserting a product whose id is not taken keeps product ids distinct |
| Handlers.NewPurchaseKeepsBuyersUsers | src/index.ts:503-521 | a purchase is inserted only with an existing buyer, so a table whose buyers are all users stays so (a conditional fact: the seed purchases' buyer is not a user, and user deletion does not preserve it) |
| Handlers.AsWrittenRefusesExistingUsers | src/index.ts:455-458 | as written, GET /users/:id/purchases fails with "Usuario não existe" for every existing user; the corrected lookup does not |
| Handlers.AsWrittenOnSeed | src/index.ts:455-465 | as written, on the seed tables: u001 is refused as unknown and the product id p002 gets purchase c001; the corrected lookup refuses p002 |

## Findings

| source | as written | input that shows it | evidently intended | confidence | as-written member | corrected member |
|---|---|---|---|---|---|---|
| src/index.ts:455-458 | throws "Usuario não existe" ("user does not exist") when `users.find` DOES find the user | any existing id, such as "u001" on the seed tables | throw when no user has the id | high; not executed | Handlers.AsWrittenRefusesExistingUsers (about Handlers.UserPurchaseAsWritten) | Handlers.UserPurchase (used by Handlers.Store.GetUserPurchase) |

## Left out

- Each handler is one atomic step. The async POST handlers await between their checks and their insert (src/index.ts:104-127, 321-335, 503-521). Two overlapping requests can both pass a duplicate-id, duplicate-email or buyer check. The uniqueness and buyer results hold only for requests that do not overlap. DELETE and PUT are synchronous and are not affected.
- Express and CORS wiring, `app.listen`, request and response objects, status codes and console logging are I/O. Every failure is answered with its message.
- The code uses two stores: the knex SQL database and the module-level arrays. Creating users, products and purchases, and GET /users, /products and /purchases, go through SQL. Lookups by id, edits and deletes use the arrays. The model merges both into one set of tables.
- Each SQL query is a membership test, and each SQL insert appends a row. The text of the queries, string interpolation (and so SQL injection), row order in the database, and any key constraint inside the database are not modelled.
- Product search by name (src/index.ts:236-265) is a bare SQL equality query and is not modelled.
- Handlers.Store.EditProduct: the body field `category` is read but never used, so it is not a parameter.
- Handlers.Store.GetUserPurchase: models the corrected existence check (see Findings). As in the code, it answers only the first purchase with that buyer.
- Password.PasswordRule: lengths count Unicode scalar values. JavaScript counts UTF-16 code units, so a character outside the Basic Multilingual Plane counts as two there and as one here. A JSON string can also carry a lone surrogate such as `"\ud800"`. JavaScript holds it and the regex counts it as a special character, but a Dafny `char` cannot hold it, so such passwords are not modelled.
- `getAllUser`, `getAllProduct` and `find` return references into the live arrays. The model returns values, so aliasing (a caller mutating the returned array) is not captured.
- The catch block of GET /purchases sends a second response. This is I/O.
- Prices, total prices and `paid` are exact reals. The handlers do no arithmetic on them, so floating-point rounding is not at stake.
- `createUser` and `createProduct` of src/database.ts are not called by any handler. They are modelled only as the fixed strings they return.
- Line items, recomputing a purchase's total price, and composite purchase views are not part of this code.
