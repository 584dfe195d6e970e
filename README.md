# Store backend: accounts and carts

A Dafny model of the account and cart rules of an online store's GraphQL
backend. The store holds two MongoDB collections, users (each with an embedded
cart of `{productId, quantity}` lines) and products, in their natural order.
The model covers the user schema (field casts, validators, the
password-hashing save hook, the password check) and every resolver: the
queries `me`, `product` and `getAllProducts`, and the mutations `addUser`,
`login`, `saveProductToCart`, `updateQuantity`, `removeProductFromCart` and
`addProductToDB`.

Files:

- `common.dfy` (`Common`): `Option`, `Result`, the thrown errors, ObjectIds,
  and `FindOne`, the first document in natural order that a filter accepts.
- `user_model.dfy` (`UserModel`): the user record and its schema rules. These
  are JavaScript `trim`, the email regex, `minlength` counted in UTF-16 code
  units, `min: 1` on quantity and the `isAdmin` default. bcrypt is modelled
  as a salt prefix followed by a digest; the digest function is a parameter.
  The class `UserDocument` holds the `pre('save')` hook. The input of
  `User.create` may carry `isAdmin`; the GraphQL input of `addUser` never
  does, so through the API a new user is never an admin.
- `cart_updates.dfy` (`CartUpdates`): what `$addToSet`, `$pull` and the
  positional `$set` do to one cart.
- `resolvers.dfy` (`Resolvers`): the class `Store` with the two collections as
  `seq` fields. Queries are functions that read the store. Mutations are
  methods whose postconditions give the new collections as pure functions of
  the old ones, and lemmas state what those functions do.

The store invariant `Store.Valid` says that ids are distinct and below the
next id to be issued, and that usernames and emails are unique. It also says
every stored username is trimmed and non-empty and every stored email matches
the pattern. Every method keeps it. Cart quantities are not part of it,
because `updateQuantity` can store any quantity.

Behaviours of the code a reader might not expect:

- `login` answers "Could not find user." for an unknown email and "Could not
  authenticate user." for a wrong password, so the two causes can be told
  apart.
- `addProductToDB` gives the same "Admin Privilages Required" error to an
  anonymous caller and to a signed-in non-admin.
- `saveProductToCart` compares whole lines. Adding a product again with
  another quantity therefore adds a second line for it.
- `updateQuantity` looks up any user holding the product, not the caller. It
  does not validate the quantity, and it returns null rather than an error
  when nobody holds the product.
- `product` turns a miss into "unknown error occured".
- `saveProductToCart` and `removeProductFromCart` throw the
  `AuthenticationError` class itself, without constructing it. This is
  modelled as `BareAuthenticationError`, an error with no message.

## Model

| member | source | states |
|---|---|---|
| `Common.FindOne` | server/src/schemas/resolvers.ts:96 | the index found is the first document in collection order that the filter accepts; none is found exactly when no document matches |
| `Common.FindOneUnique` | server/src/models/User.ts:24-35 | when at most one document can match, as with a unique field, the first match is that document |
| `UserModel.TrimStart` | server/src/models/User.ts:28 | the result is a suffix of the input that starts with no whitespace, and everything dropped is JavaScript whitespace |
| `UserModel.TrimEnd` | server/src/models/User.ts:28 | the result is a prefix of the input that ends with no whitespace, and everything dropped is whitespace |
| `UserModel.Trim` | server/src/models/User.ts:28 | the trimmed username neither starts nor ends with whitespace and is no longer than the input |
| `UserModel.TrimIsInfix` | server/src/models/User.ts:28 | the trimmed string is a slice of the input with only whitespace before and after it |
| `UserModel.TrimOfTrimmed` | server/src/models/User.ts:28 | a string with no whitespace at either end is unchanged by trim |
| `UserModel.TrimIdempotent` | server/src/models/User.ts:28 | trimming twice equals trimming once, so a stored username is a fixed point of the cast |
| `UserModel.EmailAccepted` | server/src/models/User.ts:34 | every string of the form X@Y.Z, with X, Y and Z non-empty and free of line breaks, passes the email pattern |
| `UserModel.EmailShapeNecessary` | server/src/models/User.ts:34 | an accepted email has at least 5 characters, an `@` after its first character, and after that a `.` that is neither adjacent to the `@` nor last |
| `UserModel.EmailExamples` | server/src/models/User.ts:34 | "alice@x.com" passes. "alice@x", "@x.com", "a@.c" and a line break before the `@` are rejected. An unanchored match inside a longer text passes |
| `UserModel.Utf16Length` | server/src/models/User.ts:39 | the length JavaScript measures lies between the character count and twice it, and equals the character count when all characters are in the Basic Multilingual Plane |
| `UserModel.PasswordLengthExamples` | server/src/models/User.ts:39 | a 4-character password is rejected and "hunter2" is accepted. Three astral characters count as 6 units and are accepted |
| `UserModel.IsEmail` | server/src/models/User.ts:34 | the unanchored pattern `/.+@.+\..+/`: some `@` after a non-line-break character, then at least one such character, a `.`, and one more such character; `EmailAccepted` and `EmailShapeNecessary` bound it from both sides |
| `UserModel.PasswordLongEnough` | server/src/models/User.ts:39 | `minlength: 5` measured in UTF-16 code units, as `Utf16Length` counts them |
| `UserModel.QuantityValid` | server/src/models/User.ts:45 | a cart-line quantity passes exactly when it is present and at least 1 |
| `UserModel.Compare` | server/src/models/User.ts:68-70 | `bcrypt.compare`: the salt is read back from the first 29 characters and the candidate's digest under it must equal the rest; `CompareHash` and `CompareOtherPassword` state what it accepts |
| `UserModel.IsCorrectPassword` | server/src/models/User.ts:68-70 | the candidate is compared with the stored hash of the record |
| `UserModel.AdminFlag` | server/src/models/User.ts:50 | a new user is an admin exactly when `isAdmin: true` is supplied; by default the flag is false |
| `UserModel.NewRecord` | server/src/models/User.ts:22-50 | the created document has the trimmed username, the email and password as given, the given id, an empty cart and the defaulted admin flag |
| `UserModel.ValidationErrors` | server/src/models/User.ts:24-39 | a path is reported exactly when its validator fails: `username` when empty after trim, `email` when it does not match the pattern, `password` when shorter than 5. No path reported means all three pass |
| `UserModel.Hash` | server/src/models/User.ts:62 | a bcrypt string begins with the salt it was computed under |
| `UserModel.CompareHash` | server/src/models/User.ts:68-70 | compare(p, hash(p)) holds: a password verifies against its own hash, for every digest and every salt |
| `UserModel.CompareOtherPassword` | server/src/models/User.ts:68-70 | another password verifies against a hash exactly when its digest under the same salt collides with the original's |
| `UserModel.SavedPassword` | server/src/models/User.ts:59-66 | the hook hashes the password when the document is new or the password was modified, and otherwise leaves it unchanged |
| `UserModel.CreatedPasswordVerifies` | server/src/models/User.ts:59-70 | the plaintext given at creation verifies against what the first save stores |
| `UserModel.ResaveKeepsHash` | server/src/models/User.ts:60-63 | saving again without a password change keeps the same hash, so a hash is never re-hashed |
| `UserModel.UserDocument.Create` | server/src/models/User.ts:22-50 | a created document is new, holds the record `NewRecord` builds, and counts its password, set while building it, as modified |
| `UserModel.UserDocument.Hydrate` | server/src/models/User.ts:60 | a loaded document is not new and has nothing modified |
| `UserModel.UserDocument.SetPassword` | server/src/models/User.ts:60 | assigning the password replaces it; the path becomes modified exactly when it was already modified or the new value differs from the current one |
| `UserModel.UserDocument.PreSave` | server/src/models/User.ts:59-66 | the hook replaces the password by the `SavedPassword` of the old state and changes nothing else |
| `UserModel.UserDocument.Save` | server/src/models/User.ts:59-66 | saving runs the hook and leaves the document persisted: not new, nothing modified |
| `UserModel.CreateAndResave` | server/src/models/User.ts:59-70 | create, save, save again: the stored password is the first hash, and the original plaintext verifies |
| `UserModel.AssignAndSave` | server/src/models/User.ts:59-66 | loading a stored user, assigning its stored hash again and saving keeps the record as it was; assigning any other password stores that password's hash under the new salt |
| `CartUpdates.AddToSet` | server/src/schemas/resolvers.ts:127-129 | the old lines keep their places and at most one line is added. Afterwards the set of lines is the old set plus the added line, and the cart is unchanged exactly when an equal line was already there |
| `CartUpdates.AddToSetIdempotent` | server/src/schemas/resolvers.ts:127-129 | adding the same line twice equals adding it once |
| `CartUpdates.AddToSetKeepsDistinct` | server/src/schemas/resolvers.ts:127-129 | set insertion never creates two equal lines |
| `CartUpdates.AddToSetKeepsQuantitiesValid` | server/src/models/User.ts:45 | adding a line whose quantity is at least 1 keeps every quantity at least 1 |
| `CartUpdates.LinesFor` | server/src/models/User.ts:41-48 | the lines selected for a product are exactly the cart's lines for that product |
| `CartUpdates.LinesForConcat` | server/src/models/User.ts:41-48 | selecting a product's lines distributes over concatenation |
| `CartUpdates.LinesForAbsent` | server/src/models/User.ts:41-48 | a cart without the product has no lines for it |
| `CartUpdates.SameProductTwice` | server/src/schemas/resolvers.ts:127-129 | adding a product the cart lacks with quantity q1 and then with q2 ≠ q1 leaves two lines for it, (p, q1) then (p, q2) |
| `CartUpdates.Pull` | server/src/schemas/resolvers.ts:172 | the lines that remain are exactly the cart's lines for other products |
| `CartUpdates.PullConcat` | server/src/schemas/resolvers.ts:172 | pulling distributes over concatenation, so the remaining lines keep their relative order |
| `CartUpdates.PullPartition` | server/src/schemas/resolvers.ts:172 | the lines kept plus the product's lines add up to the whole cart |
| `CartUpdates.PullNoOpIff` | server/src/schemas/resolvers.ts:172 | a pull leaves the cart unchanged exactly when the cart holds no line for the product |
| `CartUpdates.PullIdempotent` | server/src/schemas/resolvers.ts:172 | pulling twice equals pulling once |
| `CartUpdates.PullCommutes` | server/src/schemas/resolvers.ts:172 | pulls of two products give the same cart in either order |
| `CartUpdates.PullKeepsQuantitiesValid` | server/src/schemas/resolvers.ts:172 | pulling keeps every quantity at least 1 if it was before |
| `CartUpdates.FirstLine` | server/src/schemas/resolvers.ts:156 | the positional `$` points at the first line for the product; no line is found exactly when the cart lacks the product |
| `CartUpdates.SetFirstQuantity` | server/src/schemas/resolvers.ts:156 | the positional set keeps the cart's length and the product of every line |
| `CartUpdates.SetFirstQuantityChangesFirstLine` | server/src/schemas/resolvers.ts:156 | exactly the first line for the product becomes (p, q) and every other line stays, later lines for p included. Without the product the cart is unchanged |
| `CartUpdates.SetQuantityBelowMinimum` | server/src/schemas/resolvers.ts:151-157 | with no validators, a quantity below 1 is stored and the cart breaks the schema's `min: 1` |
| `CartUpdates.SetQuantityKeepsQuantitiesValid` | server/src/models/User.ts:45 | setting a quantity of at least 1 keeps every quantity at least 1 |
| `CartUpdates.SetQuantityCanDuplicateLines` | server/src/schemas/resolvers.ts:156 | a cart with lines (p, 2) and (p, 3), updated to 3, ends up with two equal lines |
| `Resolvers.SignToken` | server/src/schemas/resolvers.ts:88 | the token carries the record's username, email, id and admin flag |
| `Resolvers.IdentityTaken` | server/src/models/User.ts:27-33 | the unique indexes on username and email reject a record when some stored record has the same username or the same email |
| `Resolvers.AddedToCart` | server/src/schemas/resolvers.ts:124-129 | the `$addToSet` update leaves every identity field and password as it was; `AddedToCartEffect` gives its full effect |
| `Resolvers.PulledFromCart` | server/src/schemas/resolvers.ts:170-172 | the `$pull` update leaves every identity field and password as it was; `PulledFromCartEffect` gives its full effect |
| `Resolvers.QuantityUpdated` | server/src/schemas/resolvers.ts:154-158 | the update as written leaves every identity field and password as it was; `QuantityUpdatedEffect` says which line changes |
| `Resolvers.OwnQuantityUpdated` | server/src/schemas/resolvers.ts:154-158 | the corrected update, filtered on the caller's id and the product, leaves every identity field and password as it was; `OwnQuantityUpdatedEffect` gives its full effect and `OwnQuantityUpdatedOnlyCaller` says which records do not change |
| `Resolvers.FindUser` | server/src/schemas/resolvers.ts:59 | the record returned is in the collection and has the id; null is returned exactly when no record has it |
| `Resolvers.UserWithId` | server/src/schemas/resolvers.ts:125 | the `{_id}` filter finds the first record with the id, and none exactly when no record has it |
| `Resolvers.UserWithEmail` | server/src/schemas/resolvers.ts:96 | the `{email}` filter finds the first record with the email, and none exactly when no record has it |
| `Resolvers.FirstCartHolder` | server/src/schemas/resolvers.ts:155 | the `cart.productId` filter finds the first user in collection order, whoever it is, whose cart holds the product |
| `Resolvers.OwnCartHolder` | server/src/schemas/resolvers.ts:155 | the corrected filter, on the caller's id and the product, finds the first such record, and none exactly when no record with the id holds the product |
| `Resolvers.WellFormedAfterInsert` | server/src/models/User.ts:24-35 | inserting a validated record with a fresh id and an unused username and email keeps ids, usernames and emails unique |
| `Resolvers.EmailFindsInserted` | server/src/schemas/resolvers.ts:96 | after inserting a record with an unused email, the email lookup finds that record |
| `Resolvers.WellFormedAcrossCartChange` | server/src/schemas/resolvers.ts:124-177 | an update that changes carts only keeps the collection invariant |
| `Resolvers.WithCart` | server/src/schemas/resolvers.ts:124-177 | replacing one user's cart leaves every other record, and every identity field and password, unchanged |
| `Resolvers.UserWithIdUnique` | server/src/schemas/resolvers.ts:125 | with unique ids, the `{_id}` filter finds the one record that has the id |
| `Resolvers.AddedToCartEffect` | server/src/schemas/resolvers.ts:124-133 | the add changes only the record with the caller's id, whose cart becomes the set-insertion of the line |
| `Resolvers.AddedToCartIdempotent` | server/src/schemas/resolvers.ts:124-133 | repeating an identical add leaves the collection as one add did |
| `Resolvers.PulledFromCartEffect` | server/src/schemas/resolvers.ts:170-172 | the remove changes only the record with the caller's id, whose cart loses every line for the product |
| `Resolvers.PulledFromCartIdempotent` | server/src/schemas/resolvers.ts:170-172 | removing twice leaves the collection as removing once did |
| `Resolvers.QuantityUpdatedEffect` | server/src/schemas/resolvers.ts:154-158 | the update changes the first user in collection order holding the product, and in that user only the first matching line. When nobody holds the product the collection is unchanged |
| `Resolvers.OwnQuantityUpdatedEffect` | server/src/schemas/resolvers.ts:154-158 | with unique ids, the corrected update gives the caller's record, when its cart holds the product, the quantity on the first line for it, and leaves every other record as it was |
| `Resolvers.OwnQuantityUpdatedOnlyCaller` | server/src/schemas/resolvers.ts:154-158 | the corrected update changes no record whose id is not the caller's |
| `Resolvers.OwnQuantityUpdatedKeepsCartsValid` | server/src/schemas/resolvers.ts:151-157 | the corrected update, with a quantity of at least 1, keeps every cart within `min: 1` |
| `Resolvers.QuantityBelowMinimumStored` | server/src/schemas/resolvers.ts:151-157 | as written, a quantity below 1 breaks `min: 1` in some cart whenever someone holds the product |
| `Resolvers.CrossUserUpdate` | server/src/schemas/resolvers.ts:154-158 | Bob comes first and both Bob and Alice hold p. Alice's update of p changes Bob's line and not hers; the corrected update changes hers |
| `Resolvers.Store.Valid` | server/src/models/User.ts:24-35 | the store invariant every method keeps: ids distinct and below the next id, usernames and emails unique, usernames trimmed and non-empty, emails matching the pattern, product ids distinct |
| `Resolvers.Store.Me` | server/src/schemas/resolvers.ts:56-65 | without a context user, the call fails with "Could not authenticate user.". Otherwise it returns the record with the caller's id, or null when none exists |
| `Resolvers.Store.ProductByName` | server/src/schemas/resolvers.ts:66-76 | a product with the name is found exactly when one exists, and it is the first such product in collection order. A miss fails with "unknown error occured", not "Product not found" |
| `Resolvers.Store.GetAllProducts` | server/src/schemas/resolvers.ts:77-80 | the answer is the message "No Products to Display" exactly when there are no products, and otherwise the whole product list |
| `Resolvers.Store.Login` | server/src/schemas/resolvers.ts:94-116 | an unknown email fails with "Could not find user."; that failure happens exactly when no record has the email. Success means a record with the email whose password verifies, and the token is built from that record. Every other outcome is "Could not authenticate user." |
| `Resolvers.LoginSucceedsIff` | server/src/schemas/resolvers.ts:94-116 | with unique emails, login succeeds exactly when some record has the email and the password verifies against its hash |
| `Resolvers.LoginFailureMessages` | server/src/schemas/resolvers.ts:99-109 | a known email with a wrong password fails with "Could not authenticate user." |
| `Resolvers.Store.AddUser` | server/src/schemas/resolvers.ts:83-92 | a failing validator gives a validation error. A username or email already taken gives a duplicate-key error and no existing record is overwritten. Otherwise exactly one record is appended: trimmed username, hashed password, empty cart, default admin flag. The token is built from it, and logging in with the given email and password returns the same token and record |
| `Resolvers.Store.SaveProductToCart` | server/src/schemas/resolvers.ts:118-139 | without a context user, or with a quantity missing or below 1, the call fails and no record changes. Otherwise only the caller's record changes: the line is appended unless an equal one exists, and the updated record, or null, is returned |
| `Resolvers.Store.UpdateQuantity` | server/src/schemas/resolvers.ts:141-162 | without a context user, the call fails and nothing changes. Otherwise the first line for the product in the first user holding it gets the quantity as given, whatever its value. That user's updated record is returned, or null and no change when nobody holds the product |
| `Resolvers.Store.UpdateOwnQuantity` | server/src/schemas/resolvers.ts:141-161 | the corrected update fails without a context user and rejects a quantity below 1. Otherwise it applies `OwnQuantityUpdated`, changes no record but the caller's, and returns the caller's updated record when its cart held the product, null otherwise |
| `Resolvers.Store.RemoveProductFromCart` | server/src/schemas/resolvers.ts:164-180 | without a context user, the call fails and nothing changes. Otherwise every line for the product is pulled from the caller's record only, and the updated record, or null, is returned |
| `Resolvers.Store.AddProductToDB` | server/src/schemas/resolvers.ts:183-190 | an admin context appends exactly one product, which `getAllProducts` then lists, under the next ObjectId, which is then used up. Any other context fails with "Admin Privilages Required" and the products are unchanged |

## Left out

- The token: `signToken`, the `AuthenticationError` class and the parsing of the request header into `context.user` live in `utils/auth`, which is not part of this model. A token is a record of the four claims it is built from, with no signature and no expiry. The context is a parameter of each resolver.
- bcrypt: the digest is an uninterpreted function fixed when the store is created. The random salt is a parameter. The 29-character prefix stands for version, cost and salt; the cost of 10 rounds is not modelled.
- `UserModel.CompareOtherPassword`: the model cannot prove that a wrong password is rejected, because that depends on the digest's collision resistance. The lemma states exactly when a wrong password would pass.
- ObjectIds come from a counter. Casting a client-supplied id string to an ObjectId, and the cast error for a malformed one, are not modelled.
- JavaScript numbers: quantities are integers. Fractional, `NaN` and infinite quantities are not modelled. `price` is carried as a `real` with no float arithmetic, and nothing computes with it.
- The product schema (`server/src/models/Product.ts`) is not part of this model. `addProductToDB` stores its input as given, without product validators or their errors.
- The exact text of Mongoose validation errors is not modelled. A failing cart-line quantity is reported under the path `cart.quantity`.
- Unique indexes are modelled only by their effect: the insert fails with `DuplicateKey`. Which index is named in the error, and races between concurrent inserts, are not modelled.
- Database and network failures, which `product` would also turn into "unknown error occured".
- Async evaluation, `populate("cart.productId")` (the join with product details), `timestamps`, and the `toJSON`/`toObject` getters.
- Saving an existing document re-runs Mongoose validation on its modified paths. `UserDocument.Save` models only the hook and the change tracking it reads.
- `server/src/schemas/typeDefs.ts` (the GraphQL schema text) and `client/src/main.tsx` (UI routing). The schema text declares no `updateQuantity` and no cart quantity input, so it does not describe the resolvers.

## Findings

| source | as written | input that shows it | evidently intended | confidence | as-written member | corrected member |
|---|---|---|---|---|---|---|
| server/src/schemas/resolvers.ts:154-158 | `updateQuantity` selects the user by `cart.productId` alone, so it ignores who is calling | Bob comes first and holds product p, and so does Alice. Alice sets p to 5: Bob's line becomes 5 and Alice's stays 1 | update only the caller's own line, with a filter on both the caller's id and the product | not executed | `Resolvers.CrossUserUpdate` | `Resolvers.OwnQuantityUpdatedOnlyCaller` |
| server/src/schemas/resolvers.ts:151-157 | `updateQuantity` runs without validators, so any quantity is stored | any user holds p, and a signed-in caller sets p to 0: a line with quantity 0 is stored | refuse quantities below 1. The schema says `min: 1`, and the resolver's own to-do note says the quantity should never be 0 | not executed | `Resolvers.QuantityBelowMinimumStored` | `Resolvers.OwnQuantityUpdatedKeepsCartsValid` |
