# secondChance backend: account and item routes

A Dafny model of the two Express route modules of the secondChance backend:

- `routes/authRoutes.js` — `/register`, `/login` and `/update` over the
  `users` collection, with bcrypt password hashing and jwt tokens;
- `routes/secondChanceItemsRoutes.js` — `GET /`, `POST /`, `GET /:id`,
  `PUT /:id` and `DELETE /:id` over the `secondChanceItems` collection,
  including the id assignment of `POST /` (descending sort on `id`,
  `parseInt`, `+ 1`, `toString`).

Each collection is a class holding a sequence of documents
(`Accounts.UserDirectory`, `Items.Catalog`); each route handler is a method
that takes the request fields and returns the response's status code and
JSON body, changing the collection in place where the handler writes to the
store. For the item routes a handler that throws is modelled by the outcome
`Forwarded` (the error is passed to `next`).

Files:

- `wrappers.dfy` — `Option`.
- `js_number.dfy` — `parseInt` without a radix (leading white space, sign,
  `0x` prefix, longest digit run, NaN), `+ 1` and `toString` on integers and NaN.
- `json.dfy` — field values, JavaScript falsiness, `String(v)`, and the
  document store's sort order (by type, then by value; strings by code point).
- `credentials.dfy` — bcrypt `hash`/`compare` and jwt `sign`, abstracted.
- `accounts.dfy` — the account routes.
- `items.dfy` — the item routes.

External pieces become parameters: the clock (`new Date()`), bcrypt's random
salt. The store assigns account `_id`s from a counter held by the collection.

The model follows the code as written. Where the route code differs from
what the handlers seem meant to do, the model keeps the code's behaviour and
states the difference as a property:

- `sort({ id: -1 })` compares string ids as text, so `"9"` sorts above
  `"10"` and Create can assign an id that is already taken
  (`Items.DuplicateIdAfterNine`); ids are not increasing.
- On an empty collection the `forEach` body never runs, so the new item keeps
  whatever `id` the request body carried, or none (`Items.CreateOnEmpty`).
  There is no base id such as `"1"`.
- A top id that does not parse gives the id `"NaN"`; the inserted document
  then keeps `"NaN"` on top, so every later Create assigns `"NaN"` again
  (`Items.NaNIdIsSticky` for one step, `Items.NaNIdForever` for any run).
- Create inserts the document and then assigns to a `const`, which throws:
  the outcome is an error passed to `next`, not a 201 reply, and the
  attachment uploaded with the request is not recorded on the item.
- Update of a found item throws at the write-back, which names an unbound
  `id`: the store is never changed and the error goes to `next`.

## Model

| member | source | states |
|---|---|---|
| `Accounts.FindByEmail` | secondChance-backend/routes/authRoutes.js:25 | the lookup by email returns the position of the first account with that email, and misses exactly when no account has it (an absent email matches none) |
| `Accounts.FindOwnEmail` | secondChance-backend/routes/authRoutes.js:25-39 | while emails are unique, looking up an account's own email finds that account |
| `Accounts.UserDirectory.constructor` | secondChance-backend/routes/authRoutes.js:17 | an empty `users` collection satisfies the collection invariant (unique non-empty emails, unique ids) |
| `Accounts.UserDirectory.Register` | secondChance-backend/routes/authRoutes.js:14-54 | missing or empty email or password: 400 "Invalid request", nothing changes; email already present: 400 "Email already exists", nothing changes; otherwise exactly one account is appended (given email, names, `Hash(password, salt)`, creation time, new `_id`), earlier accounts are untouched, the answer is 200 with a token for the new `_id` and the email only; email uniqueness is preserved |
| `Accounts.UserDirectory.Login` | secondChance-backend/routes/authRoutes.js:57-92 | never changes the store; the answer is the one 400 "Invalid credentials" exactly when the email is unknown or the password does not verify; a missing password gives 500; 200 exactly when the stored hash verifies, then carrying a token for the stored `_id`, the stored firstName as `userName` and the stored email as `userEmail` |
| `Accounts.UserDirectory.UpdateProfile` | secondChance-backend/routes/authRoutes.js:95-148 | no email header: 400, no change; unknown email: 404, no change; otherwise only that account's firstName, lastName (from body `firstname`, `lastname`) and updatedAt change, its `_id`, email, password and createdAt and all other accounts stay, and the answer is 200 with a token for the same `_id` |
| `Accounts.RegisterThenLogin` | secondChance-backend/routes/authRoutes.js:61-87 | after a register, login with the right password succeeds with the same token payload and email; a wrong password and an unknown email give the identical "Invalid credentials" answer |
| `Accounts.RegisterTwice` | secondChance-backend/routes/authRoutes.js:25-29 | a second registration with the same email answers 400 "Email already exists" and leaves the single first account, whose hash verifies the first password |
| `Accounts.RegisterUpdateLogin` | secondChance-backend/routes/authRoutes.js:123-143 | after a profile update the new token names the registered account and a later login reports the new first name |
| `Credentials.VerifyHash` | secondChance-backend/routes/authRoutes.js:63-66 | `compare` accepts a candidate against `Hash(p, s)` exactly when the candidate is p |
| `Credentials.SignInjective` | secondChance-backend/routes/authRoutes.js:41-47 | tokens for two user ids are equal exactly when the ids are |
| `JsNumber.ParseIntOfIntToString` | secondChance-backend/routes/secondChanceItemsRoutes.js:59 | `parseInt` of the decimal text `toString` writes for an integer gives that integer back |
| `JsNumber.ParseIntOfToString` | secondChance-backend/routes/secondChanceItemsRoutes.js:59 | `parseInt(x.toString())` is x, for integers and for NaN |
| `Json.BelowIrreflexive` | secondChance-backend/routes/secondChanceItemsRoutes.js:57 | no id value sorts before itself |
| `Json.BelowTransitive` | secondChance-backend/routes/secondChanceItemsRoutes.js:57 | the sort order on id values is transitive |
| `Json.BelowTotal` | secondChance-backend/routes/secondChanceItemsRoutes.js:57 | any two different id values are ordered one way or the other |
| `Items.FirstWithId` | secondChance-backend/routes/secondChanceItemsRoutes.js:74 | the lookup by `id` returns the position of the first document whose `id` is that string, and misses exactly when none is |
| `Items.TopIndex` | secondChance-backend/routes/secondChanceItemsRoutes.js:57 | the document picked by the descending sort with limit 1 is one no other document sorts above |
| `Items.TopQuery` | secondChance-backend/routes/secondChanceItemsRoutes.js:57 | the query yields at most one document, and none exactly when the collection is empty; that document belongs to the collection and no document's `id` sorts above its `id` |
| `Items.TopIsMaximum` | secondChance-backend/routes/secondChanceItemsRoutes.js:57 | every document's `id` sorts at or below the top document's |
| `Items.NewItem` | secondChance-backend/routes/secondChanceItemsRoutes.js:57-62 | the inserted document has the body's fields plus `date_added` (and `id` when the collection was not empty), keeps every other body field's value, has `date_added` equal to the clock in whole seconds, and on an empty collection keeps the body's `id` |
| `Items.NextIdFollowsTop` | secondChance-backend/routes/secondChanceItemsRoutes.js:57-60 | when the top document's id parses to n, the new id is the decimal text of n + 1, which parses to n + 1 |
| `Items.NextIdOfInt` | secondChance-backend/routes/secondChanceItemsRoutes.js:59 | a top id whose text parses to n yields the decimal text of n + 1 as the next id |
| `Items.NextIdAfterNaN` | secondChance-backend/routes/secondChanceItemsRoutes.js:58-60 | when the top document's id does not parse, the new id is "NaN" |
| `Items.NaNIdIsSticky` | secondChance-backend/routes/secondChanceItemsRoutes.js:57-62 | once the top id is "NaN", Create assigns "NaN" again, and after the insert the top id is still "NaN" |
| `Items.NaNIdForever` | secondChance-backend/routes/secondChanceItemsRoutes.js:57-63 | from a "NaN" top id, every document inserted by any run of valid Creates (`Items.CreateMany`) has the id "NaN" |
| `Items.DuplicateIdAfterNine` | secondChance-backend/routes/secondChanceItemsRoutes.js:57-60 | with ids "9" and "10" stored, the text sort puts "9" on top and Create assigns "10", an id already taken |
| `Items.Catalog.List` | secondChance-backend/routes/secondChanceItemsRoutes.js:31-41 | answers 200 with every document of the collection, in order, and changes nothing |
| `Items.Catalog.Create` | secondChance-backend/routes/secondChanceItemsRoutes.js:44-68 | a body with category, condition, age_days or description missing or falsy gets 400 "Missing required fields" and nothing is inserted; otherwise exactly `NewItem` is appended, the existing documents stay, and the outcome is the error passed to `next` |
| `Items.CreateOnEmpty` | secondChance-backend/routes/secondChanceItemsRoutes.js:57-63 | on an empty collection the stored document is the body plus `date_added`: its `id` is whatever the client sent, or absent |
| `Items.Catalog.Get` | secondChance-backend/routes/secondChanceItemsRoutes.js:71-83 | answers 200 with the first document whose `id` is the path parameter, or 404 "Item not found"; changes nothing |
| `Items.Catalog.Update` | secondChance-backend/routes/secondChanceItemsRoutes.js:86-115 | unknown id: 404; known id: the error from the unbound `id` goes to `next`; in both cases the store is unchanged |
| `Items.Catalog.Delete` | secondChance-backend/routes/secondChanceItemsRoutes.js:118-131 | unknown id: 404 and nothing changes; otherwise exactly the first document with that id is removed, the rest keep their order, and the answer is 200 |
| `Items.CountZeroIffNotFound` | secondChance-backend/routes/secondChanceItemsRoutes.js:121-125 | the lookup by id misses exactly when no document carries the id |
| `Items.RemoveLowersCount` | secondChance-backend/routes/secondChanceItemsRoutes.js:126 | removing one document that carries the id lowers the number of documents carrying it by exactly one |
| `Items.SecondDeleteMisses` | secondChance-backend/routes/secondChanceItemsRoutes.js:118-127 | when one document carried the id, after deleting it a second delete of the same id misses (404) |
| `Items.DeleteUnknownTwice` | secondChance-backend/routes/secondChanceItemsRoutes.js:121-125 | deleting an unknown id twice answers 404 both times and leaves the collection as it was |

## Left out

- Express routing, `connectToDatabase`/`extractdb`, `dotenv` and the pino logger; the misspelt `logger.console.error` in the list handler's catch block is never reached because the model's store does not fail.
- Failures of the store itself (the catch blocks answering 500 or calling `next`): every store call succeeds in the model. The only modelled throw in the account routes is bcrypt's on a missing password.
- bcrypt salt generation and cost factor: the salt is a parameter, and the hash is idealised as collision-free over the whole password. bcryptjs reads only the first 72 UTF-8 bytes of a password, so a wrong password that shares those 72 bytes with the stored one verifies, and login (authRoutes.js lines 63-83) answers 200; the model's `Verify` accepts only the exact password.
- jwt signing secret, signature and the one-hour expiry: a token is the user id it was signed for.
- The multer disk storage of uploaded files (secondChanceItemsRoutes.js lines 10-22): the handler never reads the uploaded file, so no attachment is recorded.
- `age_years` (floating-point rounding) and `updatedAt` in the update handler's copy: the copy is discarded when the write-back throws.
- `validationResult` in the update-profile handler: no validators are attached, so it always passes.
- The `.ops[0]` reply after the insert: never reached, since the `const` reassignment throws first.
- Real timestamps: the clock is a parameter (milliseconds for items).
- Concurrent requests (the check-then-insert of register and the read-top-then-insert of Create race): the model is sequential.
- The `_id` the store adds to each inserted item document: no handler looks an item up or sorts by it, so it does not affect which document is found, updated, deleted or taken as the top. The documents in the replies of GET / and GET /:id (secondChanceItemsRoutes.js lines 35-36 and 79) do carry it, and the model's replies omit it.
- Field values that are objects, arrays, fractions, -0 or NaN, and integers beyond 2^53 (where JavaScript numbers lose precision and `toString` switches to exponent form): values are null, booleans, integers and strings. Account request fields are strings or absent. A JSON body can instead make `email` an object such as `{"$ne": null}`, which the store reads as a query operator: `findOne` at authRoutes.js line 61 then matches the first stored account, and login checks the password against an account whose email the caller never gave (the `findOne` of register at line 25 is affected the same way).
- The order among documents with equal `id` under the descending sort is left open by the store; the model takes the earliest, and the assigned id depends only on the key.
- Accounts.UserDirectory.Login: the 500 reply's `message` field (bcryptjs's error text) is not modelled.
