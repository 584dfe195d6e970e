/** The GraphQL resolvers of the store: the queries `me`, `product` and
    `getAllProducts`, and the mutations `addUser`, `login`, `saveProductToCart`,
    `updateQuantity`, `removeProductFromCart` and `addProductToDB`, over a store
    holding the user and product collections in their natural order. */
module Resolvers {
  import opened Common
  import opened UserModel
  import opened CartUpdates

  /** The claims a token carries, which the request context exposes as `context.user`. */
  datatype Identity = Identity(username: string, email: string, id: ObjectId, isAdmin: bool)

  /** The per-request context: `user` is present only for a request with a valid token. */
  datatype Context = Context(user: Option<Identity>)

  /** A signed token; signing and expiry are outside this model. */
  datatype Token = Token(claims: Identity)

  datatype Auth = Auth(token: Token, user: User)

  /** The product fields; the catalog treats them as an opaque record. */
  datatype ProductInput = ProductInput(
    name: string,
    description: string,
    image: string,
    price: real,
    stock: int)

  datatype Product = Product(id: ObjectId, info: ProductInput)

  /** `getAllProducts` answers either the product list or a message. */
  datatype ProductListing = Products(items: seq<Product>) | Message(text: string)

  /** `saveProductToCart` input; `quantity` may be missing. */
  datatype CartInput = CartInput(productId: ObjectId, quantity: Option<int>)

  datatype QuantityInput = QuantityInput(productId: ObjectId, quantity: int)

  const NotAuthenticatedMessage := "Could not authenticate user."
  const UnknownUserMessage := "Could not find user."
  const UpdateNotAuthenticatedMessage := "User not authenticated."
  const AdminRequiredMessage := "Admin Privilages Required"
  const ProductErrorMessage := "unknown error occured"
  const NoProductsMessage := "No Products to Display"
  /** The path a failing cart-line quantity validator reports. */
  const QuantityPath := "cart.quantity"

  /** `signToken(username, email, _id, isAdmin)`. */
  function SignToken(u: User): Token {
    Token(Identity(u.username, u.email, u.id, u.isAdmin))
  }

  // ---------------------------------------------------------------------------
  // Lookups in the user collection

  /** `User.findOne({_id: id})`. */
  function FindUser(users: seq<User>, id: ObjectId): (r: Option<User>)
    ensures r.Some? ==> r.value in users && r.value.id == id
    ensures r.None? <==> forall k :: 0 <= k < |users| ==> users[k].id != id
  {
    match UserWithId(users, id)
    case None => None
    case Some(k) => Some(users[k])
  }

  /** The filter `{_id: id}` of the cart mutations. */
  function UserWithId(users: seq<User>, id: ObjectId): (r: Option<nat>)
    ensures r.Some? ==> r.value < |users| && users[r.value].id == id
    ensures r.Some? ==> forall j :: 0 <= j < r.value ==> users[j].id != id
    ensures r.None? <==> forall k :: 0 <= k < |users| ==> users[k].id != id
  {
    FindOne(users, (u: User) => u.id == id)
  }

  /** The filter `{email}` of `login`. */
  function UserWithEmail(users: seq<User>, email: string): (r: Option<nat>)
    ensures r.Some? ==> r.value < |users| && users[r.value].email == email
    ensures r.Some? ==> forall j :: 0 <= j < r.value ==> users[j].email != email
    ensures r.None? <==> forall k :: 0 <= k < |users| ==> users[k].email != email
  {
    FindOne(users, (u: User) => u.email == email)
  }

  /** The filter `{"cart.productId": pid}` of `updateQuantity`: the first user,
      whoever it is, with a line for the product. */
  function FirstCartHolder(users: seq<User>, pid: ObjectId): (r: Option<nat>)
    ensures r.Some? ==> r.value < |users| && HasProduct(users[r.value].cart, pid)
    ensures r.Some? ==> forall j :: 0 <= j < r.value ==> !HasProduct(users[j].cart, pid)
    ensures r.None? <==> forall k :: 0 <= k < |users| ==> !HasProduct(users[k].cart, pid)
  {
    FindOne(users, (u: User) => HasProduct(u.cart, pid))
  }

  /** Whether a new record's username or email is already taken (the two unique indexes). */
  predicate IdentityTaken(users: seq<User>, username: string, email: string) {
    exists k | 0 <= k < |users| :: users[k].username == username || users[k].email == email
  }

  predicate UniqueIds(users: seq<User>) {
    forall i, j | 0 <= i < j < |users| :: users[i].id != users[j].id
  }

  /** The two collections agree on everything except the carts. */
  predicate SameIdentities(a: seq<User>, b: seq<User>) {
    |a| == |b| &&
    forall k | 0 <= k < |a| ::
      a[k].id == b[k].id && a[k].username == b[k].username && a[k].email == b[k].email
      && a[k].password == b[k].password && a[k].isAdmin == b[k].isAdmin
  }

  /** The collection invariant: identifiers below the next one to be issued and
      pairwise distinct, unique usernames and emails, and every identity field as
      the schema's casts and validators left it. */
  ghost predicate WellFormedUsers(users: seq<User>, nextId: nat) {
    && (forall k | 0 <= k < |users| :: users[k].id.serial < nextId)
    && UniqueIds(users)
    && (forall i, j | 0 <= i < j < |users| ::
          users[i].username != users[j].username && users[i].email != users[j].email)
    && (forall k | 0 <= k < |users| ::
          Present(users[k].username) && Trim(users[k].username) == users[k].username
          && IsEmail(users[k].email))
  }

  ghost predicate WellFormedProducts(products: seq<Product>, nextId: nat) {
    && (forall k | 0 <= k < |products| :: products[k].id.serial < nextId)
    && (forall i, j | 0 <= i < j < |products| :: products[i].id != products[j].id)
  }

  /** Appending a validated record that takes no existing username or email,
      under the next identifier, keeps the collection invariant. */
  lemma WellFormedAfterInsert(users: seq<User>, nextId: nat, record: User)
    requires WellFormedUsers(users, nextId)
    requires record.id == ObjectId(nextId) && !IdentityTaken(users, record.username, record.email)
    requires Present(record.username) && Trim(record.username) == record.username
    requires IsEmail(record.email)
    ensures WellFormedUsers(users + [record], nextId + 1)
  {
  }

  /** After such an insert, looking the new email up finds the new record. */
  lemma EmailFindsInserted(users: seq<User>, record: User)
    requires forall k :: 0 <= k < |users| ==> users[k].email != record.email
    ensures UserWithEmail(users + [record], record.email) == Some(|users|)
  {
    var all := users + [record];
    assert all[|users|].email == record.email;
    assert forall k :: 0 <= k < |users| ==> all[k].email != record.email;
  }

  /** Changing carts only cannot break the collection invariant. */
  lemma WellFormedAcrossCartChange(a: seq<User>, b: seq<User>, nextId: nat)
    requires WellFormedUsers(a, nextId) && SameIdentities(a, b)
    ensures WellFormedUsers(b, nextId)
  {
  }

  // ---------------------------------------------------------------------------
  // The cart mutations as functions of the collection

  /** Replace one user's cart. */
  function WithCart(users: seq<User>, k: nat, cart: seq<CartLine>): (r: seq<User>)
    requires k < |users|
    ensures SameIdentities(users, r) && r[k].cart == cart
    ensures forall j :: 0 <= j < |users| && j != k ==> r[j] == users[j]
  {
    users[k := users[k].(cart := cart)]
  }

  /** `findOneAndUpdate({_id: id}, {$addToSet: {cart: line}})`. */
  function AddedToCart(users: seq<User>, id: ObjectId, line: CartLine): (r: seq<User>)
    ensures SameIdentities(users, r)
  {
    match UserWithId(users, id)
    case None => users
    case Some(k) => WithCart(users, k, AddToSet(users[k].cart, line))
  }

  /** `findOneAndUpdate({_id: id}, {$pull: {cart: {productId: pid}}})`. */
  function PulledFromCart(users: seq<User>, id: ObjectId, pid: ObjectId): (r: seq<User>)
    ensures SameIdentities(users, r)
  {
    match UserWithId(users, id)
    case None => users
    case Some(k) => WithCart(users, k, Pull(users[k].cart, pid))
  }

  /** `findOneAndUpdate({"cart.productId": pid}, {$set: {"cart.$.quantity": q}})`,
      as the resolver issues it: the caller's identity does not take part. */
  function QuantityUpdated(users: seq<User>, pid: ObjectId, q: int): (r: seq<User>)
    ensures SameIdentities(users, r)
  {
    match FirstCartHolder(users, pid)
    case None => users
    case Some(k) => WithCart(users, k, SetFirstQuantity(users[k].cart, pid, q))
  }

  /** The scoped filter `{_id: id, "cart.productId": pid}`: the first record
      with the caller's id whose cart holds the product. */
  function OwnCartHolder(users: seq<User>, id: ObjectId, pid: ObjectId): (r: Option<nat>)
    ensures r.Some? ==> r.value < |users| && users[r.value].id == id && HasProduct(users[r.value].cart, pid)
    ensures r.Some? ==> forall j :: 0 <= j < r.value ==> !(users[j].id == id && HasProduct(users[j].cart, pid))
    ensures r.None? <==> forall k :: 0 <= k < |users| ==> !(users[k].id == id && HasProduct(users[k].cart, pid))
  {
    FindOne(users, (u: User) => u.id == id && HasProduct(u.cart, pid))
  }

  /** The same update with the filter scoped to the caller,
      `{_id: id, "cart.productId": pid}`. */
  function OwnQuantityUpdated(users: seq<User>, id: ObjectId, pid: ObjectId, q: int): (r: seq<User>)
    ensures SameIdentities(users, r)
  {
    match OwnCartHolder(users, id, pid)
    case None => users
    case Some(k) => WithCart(users, k, SetFirstQuantity(users[k].cart, pid, q))
  }

  /** With unique ids, the `{_id: id}` filter picks the one record with that id. */
  lemma UserWithIdUnique(users: seq<User>, id: ObjectId, k: nat)
    requires UniqueIds(users) && k < |users| && users[k].id == id
    ensures UserWithId(users, id) == Some(k)
  {
    FindOneUnique(users, (u: User) => u.id == id, k);
  }

  /** `saveProductToCart` changes the caller's record and no other: the caller's
      cart becomes the set-insertion of the line, every other record stays. */
  lemma AddedToCartEffect(users: seq<User>, id: ObjectId, line: CartLine)
    requires UniqueIds(users)
    ensures SameIdentities(users, AddedToCart(users, id, line))
    ensures forall j :: 0 <= j < |users| ==>
      AddedToCart(users, id, line)[j]
        == if users[j].id == id then users[j].(cart := AddToSet(users[j].cart, line)) else users[j]
  {
    match UserWithId(users, id)
    case None =>
    case Some(k) =>
      forall j | 0 <= j < |users| && users[j].id == id ensures j == k {
        UserWithIdUnique(users, id, j);
      }
  }

  /** Repeating an identical `saveProductToCart` changes nothing more. */
  lemma AddedToCartIdempotent(users: seq<User>, id: ObjectId, line: CartLine)
    ensures AddedToCart(AddedToCart(users, id, line), id, line) == AddedToCart(users, id, line)
  {
    var once := AddedToCart(users, id, line);
    match UserWithId(users, id)
    case None =>
    case Some(k) =>
      assert forall j :: 0 <= j < k ==> once[j] == users[j];
      assert once[k].id == id;
      assert UserWithId(once, id) == Some(k);
      AddToSetIdempotent(users[k].cart, line);
      assert once[k := once[k].(cart := AddToSet(once[k].cart, line))] == once;
  }

  /** `removeProductFromCart` changes the caller's record and no other: every line
      for the product leaves the caller's cart, the rest keep their order. */
  lemma PulledFromCartEffect(users: seq<User>, id: ObjectId, pid: ObjectId)
    requires UniqueIds(users)
    ensures SameIdentities(users, PulledFromCart(users, id, pid))
    ensures forall j :: 0 <= j < |users| ==>
      PulledFromCart(users, id, pid)[j]
        == if users[j].id == id then users[j].(cart := Pull(users[j].cart, pid)) else users[j]
  {
    match UserWithId(users, id)
    case None =>
    case Some(k) =>
      forall j | 0 <= j < |users| && users[j].id == id ensures j == k {
        UserWithIdUnique(users, id, j);
      }
  }

  /** Removing twice equals removing once. */
  lemma PulledFromCartIdempotent(users: seq<User>, id: ObjectId, pid: ObjectId)
    ensures PulledFromCart(PulledFromCart(users, id, pid), id, pid) == PulledFromCart(users, id, pid)
  {
    var once := PulledFromCart(users, id, pid);
    match UserWithId(users, id)
    case None =>
    case Some(k) =>
      assert forall j :: 0 <= j < k ==> once[j] == users[j];
      assert once[k].id == id;
      assert UserWithId(once, id) == Some(k);
      PullIdempotent(users[k].cart, pid);
      assert once[k := once[k].(cart := Pull(once[k].cart, pid))] == once;
  }

  /** `updateQuantity` modifies the first user in collection order that holds
      the product, and in that user only the first line for it; when nobody
      holds the product nothing changes. */
  lemma QuantityUpdatedEffect(users: seq<User>, pid: ObjectId, q: int)
    ensures SameIdentities(users, QuantityUpdated(users, pid, q))
    ensures (forall k :: 0 <= k < |users| ==> !HasProduct(users[k].cart, pid))
            ==> QuantityUpdated(users, pid, q) == users
    ensures forall k :: 0 <= k < |users| && HasProduct(users[k].cart, pid)
                        && (forall j :: 0 <= j < k ==> !HasProduct(users[j].cart, pid)) ==>
      forall j :: 0 <= j < |users| ==>
        QuantityUpdated(users, pid, q)[j]
          == if j == k then users[k].(cart := SetFirstQuantity(users[k].cart, pid, q)) else users[j]
  {
    match FirstCartHolder(users, pid)
    case None =>
    case Some(first) =>
      forall k | 0 <= k < |users| && HasProduct(users[k].cart, pid)
                 && (forall j :: 0 <= j < k ==> !HasProduct(users[j].cart, pid))
        ensures k == first
      {
      }
  }

  /** The corrected update touches the caller's record only. */
  lemma OwnQuantityUpdatedOnlyCaller(users: seq<User>, id: ObjectId, pid: ObjectId, q: int)
    ensures SameIdentities(users, OwnQuantityUpdated(users, id, pid, q))
    ensures forall j :: 0 <= j < |users| && users[j].id != id ==>
      OwnQuantityUpdated(users, id, pid, q)[j] == users[j]
  {
  }

  /** The corrected update changes the caller's record when its cart holds the
      product, there only the first line for it, and no other record. */
  lemma OwnQuantityUpdatedEffect(users: seq<User>, id: ObjectId, pid: ObjectId, q: int)
    requires UniqueIds(users)
    ensures forall j :: 0 <= j < |users| ==>
      OwnQuantityUpdated(users, id, pid, q)[j]
        == if users[j].id == id && HasProduct(users[j].cart, pid)
           then users[j].(cart := SetFirstQuantity(users[j].cart, pid, q))
           else users[j]
  {
    match OwnCartHolder(users, id, pid)
    case None =>
    case Some(k) =>
      forall j | 0 <= j < |users| && users[j].id == id ensures j == k {
      }
  }

  predicate AllCartsValid(users: seq<User>) {
    forall k | 0 <= k < |users| :: QuantitiesValid(users[k].cart)
  }

  /** The corrected update, which only runs with a quantity of at least one,
      keeps every cart within the schema. */
  lemma OwnQuantityUpdatedKeepsCartsValid(users: seq<User>, id: ObjectId, pid: ObjectId, q: int)
    requires AllCartsValid(users) && q >= MinQuantity
    ensures AllCartsValid(OwnQuantityUpdated(users, id, pid, q))
  {
    match OwnCartHolder(users, id, pid)
    case None =>
    case Some(k) =>
      SetQuantityKeepsQuantitiesValid(users[k].cart, pid, q);
  }

  /** As written, `updateQuantity` stores a quantity below one whenever some
      user holds the product. */
  lemma QuantityBelowMinimumStored(users: seq<User>, pid: ObjectId, q: int)
    requires q < MinQuantity
    requires exists k :: 0 <= k < |users| && HasProduct(users[k].cart, pid)
    ensures !AllCartsValid(QuantityUpdated(users, pid, q))
  {
    var k := FirstCartHolder(users, pid).value;
    SetQuantityBelowMinimum(users[k].cart, pid, q);
    assert QuantityUpdated(users, pid, q)[k].cart == SetFirstQuantity(users[k].cart, pid, q);
  }

  /** As written, `updateQuantity` edits another user's cart: with Bob ahead of
      Alice in the collection and both holding the product, Alice's request
      changes Bob's line and leaves hers alone. */
  lemma CrossUserUpdate()
    ensures var p := ObjectId(10);
            var bob := User(ObjectId(1), "bob", "bob@x.com", "h1", [CartLine(p, 1)], false);
            var alice := User(ObjectId(2), "alice", "alice@x.com", "h2", [CartLine(p, 1)], false);
            var after := QuantityUpdated([bob, alice], p, 5);
            after == [bob.(cart := [CartLine(p, 5)]), alice]
            && OwnQuantityUpdated([bob, alice], alice.id, p, 5)
               == [bob, alice.(cart := [CartLine(p, 5)])]
  {
    var p := ObjectId(10);
    var bob := User(ObjectId(1), "bob", "bob@x.com", "h1", [CartLine(p, 1)], false);
    var alice := User(ObjectId(2), "alice", "alice@x.com", "h2", [CartLine(p, 1)], false);
    var users := [bob, alice];
    assert HasProduct(bob.cart, p) by { assert bob.cart[0].productId == p; }
    assert FirstCartHolder(users, p) == Some(0);
    assert FirstLine(bob.cart, p) == Some(0);
    assert FirstLine(alice.cart, p) == Some(0);
    assert HasProduct(alice.cart, p) by { assert alice.cart[0].productId == p; }
    assert users[0].id != alice.id && users[1] == alice;
    assert OwnCartHolder(users, alice.id, p) == Some(1);
    assert SetFirstQuantity(bob.cart, p, 5) == [CartLine(p, 5)];
    assert SetFirstQuantity(alice.cart, p, 5) == [CartLine(p, 5)];
    assert QuantityUpdated(users, p, 5) == WithCart(users, 0, [CartLine(p, 5)]);
    assert OwnQuantityUpdated(users, alice.id, p, 5) == WithCart(users, 1, [CartLine(p, 5)]);
  }

  // ---------------------------------------------------------------------------
  // The store

  class Store {
    /** bcrypt's digest, fixed for the process. */
    const digest: Digest
    var users: seq<User>
    var products: seq<Product>
    /** The next ObjectId to hand out. */
    var nextId: nat

    ghost predicate Valid()
      reads this
    {
      WellFormedUsers(users, nextId) && WellFormedProducts(products, nextId)
    }

    constructor (digest: Digest)
      ensures Valid() && this.digest == digest
      ensures users == [] && products == []
    {
      this.digest := digest;
      users := [];
      products := [];
      nextId := 0;
    }

    // --- queries

    /** `me`: the caller's own record, or null when it is gone. */
    function Me(ctx: Context): (r: Result<Option<User>>)
      reads this
      ensures ctx.user.None? ==> r == Err(AuthenticationError(NotAuthenticatedMessage))
      ensures ctx.user.Some? ==> r.Ok?
      ensures ctx.user.Some? ==>
        (r.value.None? <==> forall k :: 0 <= k < |users| ==> users[k].id != ctx.user.value.id)
      ensures r.Ok? && r.value.Some? ==> r.value.value in users && r.value.value.id == ctx.user.value.id
    {
      match ctx.user
      case None => Err(AuthenticationError(NotAuthenticatedMessage))
      case Some(caller) => Ok(FindUser(users, caller.id))
    }

    /** `product(name)`: the first product with that name. A miss throws
        "Product not found" inside the `try`, which the `catch` replaces. */
    function ProductByName(name: string): (r: Result<Product>)
      reads this
      ensures r.Ok? <==> exists k :: 0 <= k < |products| && products[k].info.name == name
      ensures r.Ok? ==> r.value in products && r.value.info.name == name
      ensures r.Ok? ==> exists k :: 0 <= k < |products| && r.value == products[k]
                         && forall j :: 0 <= j < k ==> products[j].info.name != name
      ensures r.Err? ==> r.error == PlainError(ProductErrorMessage)
    {
      match FindOne(products, (p: Product) => p.info.name == name)
      case None => Err(PlainError(ProductErrorMessage))
      case Some(k) => Ok(products[k])
    }

    /** `getAllProducts`. */
    function GetAllProducts(): (r: ProductListing)
      reads this
      ensures r.Message? <==> products == []
      ensures r.Message? ==> r.text == NoProductsMessage
      ensures r.Products? ==> r.items == products
    {
      if |products| > 0 then Products(products) else Message(NoProductsMessage)
    }

    /** `login`: look the email up, check the password against the stored hash,
        and sign a token from the record found. */
    function Login(email: string, password: string): (r: Result<Auth>)
      reads this
      ensures r == Err(AuthenticationError(UnknownUserMessage))
          <==> forall k :: 0 <= k < |users| ==> users[k].email != email
      ensures r.Ok? ==>
        exists k :: 0 <= k < |users| && users[k].email == email
          && IsCorrectPassword(digest, users[k], password)
          && r.value == Auth(SignToken(users[k]), users[k])
      ensures r.Err? ==>
        r.error == AuthenticationError(UnknownUserMessage) || r.error == AuthenticationError(NotAuthenticatedMessage)
    {
      match UserWithEmail(users, email)
      case None => Err(AuthenticationError(UnknownUserMessage))
      case Some(k) =>
        if IsCorrectPassword(digest, users[k], password)
        then Ok(Auth(SignToken(users[k]), users[k]))
        else Err(AuthenticationError(NotAuthenticatedMessage))
    }

    // --- mutations

    /** `addUser`: `User.create` builds the document (trimmed username, empty
        cart, `isAdmin` default), validates it, hashes the password in the save
        hook and inserts it, which the unique indexes may refuse; then a token is
        signed for the new record. */
    method AddUser(input: UserInput, salt: string) returns (r: Result<Auth>)
      requires Valid() && |salt| == SaltLength
      modifies this
      ensures Valid() && products == old(products)
      ensures var record := NewRecord(ObjectId(old(nextId)), input);
              var errors := ValidationErrors(record);
        && (errors != [] ==> r == Err(ValidationError(errors)))
        && (errors == [] && IdentityTaken(old(users), record.username, record.email) ==>
              r == Err(DuplicateKey))
        && (errors == [] && !IdentityTaken(old(users), record.username, record.email) ==>
              && r.Ok?
              && r.value.user == record.(password := Hash(digest, input.password, salt))
              && r.value.token == SignToken(r.value.user))
      ensures r.Err? ==> users == old(users) && nextId == old(nextId)
      ensures r.Ok? ==> users == old(users) + [r.value.user] && nextId == old(nextId) + 1
      ensures r.Ok? ==> Login(input.email, input.password) == Ok(r.value)
    {
      var doc := new UserDocument.Create(ObjectId(nextId), input);
      var errors := ValidationErrors(doc.data);
      if errors != [] {
        return Err(ValidationError(errors));
      }
      doc.PreSave(digest, salt);
      var record := doc.data;
      if IdentityTaken(users, record.username, record.email) {
        return Err(DuplicateKey);
      }
      TrimIdempotent(input.username);
      CompareHash(digest, input.password, salt);
      WellFormedAfterInsert(users, nextId, record);
      EmailFindsInserted(users, record);
      users := users + [record];
      nextId := nextId + 1;
      r := Ok(Auth(SignToken(record), record));
    }

    /** `saveProductToCart`: with a context user, validate the quantity, then
        `$addToSet` the line into the record with the caller's id and return the
        updated record (null when no record has that id). */
    method SaveProductToCart(ctx: Context, input: CartInput) returns (r: Result<Option<User>>)
      requires Valid()
      modifies this
      ensures Valid() && products == old(products) && nextId == old(nextId)
      ensures ctx.user.None? ==> r == Err(BareAuthenticationError) && users == old(users)
      ensures ctx.user.Some? && !QuantityValid(input.quantity) ==>
        r == Err(ValidationError([QuantityPath])) && users == old(users)
      ensures ctx.user.Some? && QuantityValid(input.quantity) ==>
        && users == AddedToCart(old(users), ctx.user.value.id,
                                CartLine(input.productId, input.quantity.value))
        && r == Ok(FindUser(users, ctx.user.value.id))
    {
      if ctx.user.None? {
        return Err(BareAuthenticationError);
      }
      if !QuantityValid(input.quantity) {
        return Err(ValidationError([QuantityPath]));
      }
      var id := ctx.user.value.id;
      var line := CartLine(input.productId, input.quantity.value);
      var k := UserWithId(users, id);
      if k.Some? {
        users := WithCart(users, k.value, AddToSet(users[k.value].cart, line));
        WellFormedAcrossCartChange(old(users), users, nextId);
      }
      r := Ok(FindUser(users, id));
    }

    /** `updateQuantity`, as written: with a context user, set the quantity of
        the first line for the product in the first record holding it, whoever
        owns it, with no validation; return that record, or null. */
    method UpdateQuantity(ctx: Context, input: QuantityInput) returns (r: Result<Option<User>>)
      requires Valid()
      modifies this
      ensures Valid() && products == old(products) && nextId == old(nextId)
      ensures ctx.user.None? ==>
        r == Err(AuthenticationError(UpdateNotAuthenticatedMessage)) && users == old(users)
      ensures ctx.user.Some? ==>
        && users == QuantityUpdated(old(users), input.productId, input.quantity)
        && r == Ok(match FirstCartHolder(old(users), input.productId)
                   case None => None
                   case Some(k) => Some(users[k]))
    {
      if ctx.user.None? {
        return Err(AuthenticationError(UpdateNotAuthenticatedMessage));
      }
      var k := FirstCartHolder(users, input.productId);
      if k.None? {
        return Ok(None);
      }
      users := WithCart(users, k.value, SetFirstQuantity(users[k.value].cart, input.productId, input.quantity));
      WellFormedAcrossCartChange(old(users), users, nextId);
      r := Ok(Some(users[k.value]));
    }

    /** The corrected `updateQuantity`: the lookup is scoped to the caller's
        record and a quantity below one is refused like on insert. */
    method UpdateOwnQuantity(ctx: Context, input: QuantityInput) returns (r: Result<Option<User>>)
      requires Valid()
      modifies this
      ensures Valid() && products == old(products) && nextId == old(nextId)
      ensures ctx.user.None? ==>
        r == Err(AuthenticationError(UpdateNotAuthenticatedMessage)) && users == old(users)
      ensures ctx.user.Some? && input.quantity < MinQuantity ==>
        r == Err(ValidationError([QuantityPath])) && users == old(users)
      ensures ctx.user.Some? && input.quantity >= MinQuantity ==>
        && users == OwnQuantityUpdated(old(users), ctx.user.value.id, input.productId, input.quantity)
        && r == Ok(match OwnCartHolder(old(users), ctx.user.value.id, input.productId)
                   case None => None
                   case Some(k) => Some(users[k]))
      ensures forall j :: 0 <= j < |old(users)| && (ctx.user.None? || old(users)[j].id != ctx.user.value.id)
                          ==> users[j] == old(users)[j]
    {
      if ctx.user.None? {
        return Err(AuthenticationError(UpdateNotAuthenticatedMessage));
      }
      if input.quantity < MinQuantity {
        return Err(ValidationError([QuantityPath]));
      }
      var id := ctx.user.value.id;
      var pid := input.productId;
      var k := OwnCartHolder(users, id, pid);
      if k.None? {
        return Ok(None);
      }
      users := WithCart(users, k.value, SetFirstQuantity(users[k.value].cart, pid, input.quantity));
      WellFormedAcrossCartChange(old(users), users, nextId);
      r := Ok(Some(users[k.value]));
    }

    /** `removeProductFromCart`: with a context user, `$pull` every line for the
        product from the caller's record and return it (null when it is gone). */
    method RemoveProductFromCart(ctx: Context, pid: ObjectId) returns (r: Result<Option<User>>)
      requires Valid()
      modifies this
      ensures Valid() && products == old(products) && nextId == old(nextId)
      ensures ctx.user.None? ==> r == Err(BareAuthenticationError) && users == old(users)
      ensures ctx.user.Some? ==>
        && users == PulledFromCart(old(users), ctx.user.value.id, pid)
        && r == Ok(FindUser(users, ctx.user.value.id))
    {
      if ctx.user.None? {
        return Err(BareAuthenticationError);
      }
      var id := ctx.user.value.id;
      var k := UserWithId(users, id);
      if k.Some? {
        users := WithCart(users, k.value, Pull(users[k.value].cart, pid));
        WellFormedAcrossCartChange(old(users), users, nextId);
      }
      r := Ok(FindUser(users, id));
    }

    /** `addProductToDB`: only a context user whose token says admin may create
        a product; anyone else, signed in or not, gets the same error. */
    method AddProductToDB(ctx: Context, input: ProductInput) returns (r: Result<Product>)
      requires Valid()
      modifies this
      ensures Valid() && users == old(users)
      ensures ctx.user.Some? && ctx.user.value.isAdmin ==>
        && r == Ok(Product(ObjectId(old(nextId)), input))
        && products == old(products) + [r.value]
        && nextId == old(nextId) + 1
        && GetAllProducts() == Products(old(products) + [r.value])
      ensures !(ctx.user.Some? && ctx.user.value.isAdmin) ==>
        r == Err(AuthenticationError(AdminRequiredMessage)) && products == old(products)
        && nextId == old(nextId)
    {
      if ctx.user.Some? && ctx.user.value.isAdmin {
        var product := Product(ObjectId(nextId), input);
        products := products + [product];
        nextId := nextId + 1;
        r := Ok(product);
      } else {
        r := Err(AuthenticationError(AdminRequiredMessage));
      }
    }
  }

  /** With unique emails, login succeeds exactly when some record has the email
      and the password verifies against its hash. */
  lemma LoginSucceedsIff(s: Store, email: string, password: string)
    requires s.Valid()
    ensures s.Login(email, password).Ok?
        <==> exists k :: 0 <= k < |s.users| && s.users[k].email == email
                         && IsCorrectPassword(s.digest, s.users[k], password)
  {
    if k :| 0 <= k < |s.users| && s.users[k].email == email
            && IsCorrectPassword(s.digest, s.users[k], password) {
      FindOneUnique(s.users, (u: User) => u.email == email, k);
    }
  }

  /** Login failures keep the two causes apart: an unknown email and a wrong
      password give different messages. */
  lemma LoginFailureMessages(s: Store, email: string, password: string)
    requires s.Valid()
    requires exists k :: 0 <= k < |s.users| && s.users[k].email == email
    requires forall k :: 0 <= k < |s.users| && s.users[k].email == email
                         ==> !IsCorrectPassword(s.digest, s.users[k], password)
    ensures s.Login(email, password) == Err(AuthenticationError(NotAuthenticatedMessage))
  {
    LoginSucceedsIff(s, email, password);
  }
}
