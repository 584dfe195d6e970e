/** The user document of the store (`userSchema`): its fields, the validators and
    casts the schema attaches to them, the password-hashing `pre('save')` hook and
    the password check. */
module UserModel {
  import opened Common

  /** One cart entry. The schema turns off the sub-document `_id`, so two lines
      are equal exactly when product and quantity are. */
  datatype CartLine = CartLine(productId: ObjectId, quantity: int)

  /** A stored user record. `password` holds whatever the document holds: the
      plaintext before the save hook runs, the bcrypt string after it. */
  datatype User = User(
    id: ObjectId,
    username: string,
    email: string,
    password: string,
    cart: seq<CartLine>,
    isAdmin: bool)

  /** The fields handed to `User.create`; `isAdmin` is absent unless supplied. */
  datatype UserInput = UserInput(
    username: string,
    email: string,
    password: string,
    isAdmin: Option<bool>)

  const MinPasswordLength: nat := 5
  const MinQuantity: int := 1

  // ---------------------------------------------------------------------------
  // Characters as JavaScript classifies them

  /** ECMAScript LineTerminator: the characters the regex `.` does not match. */
  predicate IsLineTerminator(c: char) {
    c == '\n' || c == '\r' || c == '\U{2028}' || c == '\U{2029}'
  }

  /** ECMAScript WhiteSpace or LineTerminator: what `String.prototype.trim` strips. */
  predicate IsJsWhitespace(c: char) {
    || IsLineTerminator(c)
    || c == '\t' || c == '\U{000B}' || c == '\U{000C}' || c == ' '
    || c == '\U{00A0}' || c == '\U{1680}' || ('\U{2000}' <= c <= '\U{200A}')
    || c == '\U{202F}' || c == '\U{205F}' || c == '\U{3000}' || c == '\U{FEFF}'
  }

  // ---------------------------------------------------------------------------
  // `trim: true` on username

  /** Drops the whitespace at the front: the result is the longest suffix of `s`
      that does not start with whitespace, and everything dropped is whitespace. */
  function TrimStart(s: string): (r: string)
    ensures |r| <= |s| && r == s[|s| - |r|..]
    ensures forall k :: 0 <= k < |s| - |r| ==> IsJsWhitespace(s[k])
    ensures r != [] ==> !IsJsWhitespace(r[0])
    decreases |s|
  {
    if |s| > 0 && IsJsWhitespace(s[0]) then TrimStart(s[1..]) else s
  }

  /** Drops the whitespace at the back, symmetrically to `TrimStart`. */
  function TrimEnd(s: string): (r: string)
    ensures |r| <= |s| && r == s[..|r|]
    ensures forall k :: |r| <= k < |s| ==> IsJsWhitespace(s[k])
    ensures r != [] ==> !IsJsWhitespace(r[|r| - 1])
    decreases |s|
  {
    if |s| > 0 && IsJsWhitespace(s[|s| - 1]) then TrimEnd(s[..|s| - 1]) else s
  }

  /** `String.prototype.trim`, applied by the schema's cast before validation. */
  function Trim(s: string): (r: string)
    ensures |r| <= |s|
    ensures r != [] ==> !IsJsWhitespace(r[0]) && !IsJsWhitespace(r[|r| - 1])
  {
    TrimEnd(TrimStart(s))
  }

  /** The trimmed string is a slice of the original with only whitespace around it. */
  lemma TrimIsInfix(s: string) returns (i: nat)
    ensures i + |Trim(s)| <= |s| && Trim(s) == s[i..i + |Trim(s)|]
    ensures forall k :: 0 <= k < i ==> IsJsWhitespace(s[k])
    ensures forall k :: i + |Trim(s)| <= k < |s| ==> IsJsWhitespace(s[k])
  {
    var t := TrimStart(s);
    i := |s| - |t|;
    var r := TrimEnd(t);
    assert r == t[..|r|];
    assert t == s[i..];
    assert r == s[i..i + |r|];
    forall k | i + |r| <= k < |s| ensures IsJsWhitespace(s[k]) {
      assert s[k] == t[k - i];
    }
    assert Trim(s) == r;
  }

  /** A string that neither starts nor ends with whitespace is left as it is. */
  lemma TrimOfTrimmed(s: string)
    requires s != [] ==> !IsJsWhitespace(s[0]) && !IsJsWhitespace(s[|s| - 1])
    ensures Trim(s) == s
  {
    assert TrimStart(s) == s;
  }

  /** Trimming twice is trimming once, so stored usernames are fixed points. */
  lemma TrimIdempotent(s: string)
    ensures Trim(Trim(s)) == Trim(s)
  {
    TrimOfTrimmed(Trim(s));
  }

  // ---------------------------------------------------------------------------
  // `match: /.+@.+\..+/` on email

  /** The regex is unanchored, so it matches when some slice of the string reads
      X@Y.Z with X, Y and Z non-empty and free of line terminators. Position `i`
      is the `@`, position `j` the `.`; the shortest X and Z suffice. */
  predicate IsEmail(s: string) {
    exists i | 0 < i < |s| ::
      exists j | i + 1 < j < |s| - 1 ::
        s[i] == '@' && s[j] == '.' &&
        forall k | i - 1 <= k <= j + 1 :: !IsLineTerminator(s[k])
  }

  predicate NoLineTerminator(s: string) {
    forall k | 0 <= k < |s| :: !IsLineTerminator(s[k])
  }

  /** Every address of the shape X@Y.Z with non-empty, single-line parts is accepted. */
  lemma EmailAccepted(x: string, y: string, z: string)
    requires x != [] && y != [] && z != []
    requires NoLineTerminator(x) && NoLineTerminator(y) && NoLineTerminator(z)
    ensures IsEmail(x + "@" + y + "." + z)
  {
    var s := x + "@" + y + "." + z;
    var i, j := |x|, |x| + 1 + |y|;
    assert s[i] == '@' && s[j] == '.';
    forall k | i - 1 <= k <= j + 1 ensures !IsLineTerminator(s[k]) {
      if k < i {
        assert s[k] == x[k];
      } else if i < k < j {
        assert s[k] == y[k - i - 1];
      } else if k == j + 1 {
        assert s[k] == z[0];
      }
    }
  }

  /** An accepted address has at least five characters and contains both an `@`
      and, at least two places later, a `.` that is not the last character. */
  lemma EmailShapeNecessary(s: string)
    requires IsEmail(s)
    ensures |s| >= 5
    ensures exists i, j :: 0 < i && i + 1 < j < |s| - 1 && s[i] == '@' && s[j] == '.'
  {
  }

  lemma EmailExamples()
    ensures IsEmail("alice@x.com")
    ensures !IsEmail("alice@x")
    ensures !IsEmail("@x.com")
    ensures !IsEmail("a@.c")
    ensures !IsEmail("a\n@x.com")
    ensures IsEmail("see: a@x.com\n")
  {
    EmailAccepted("alice", "x", "com");
    assert "alice" + "@" + "x" + "." + "com" == "alice@x.com";
    var a := "a\n@x.com";
    forall i | 0 < i < |a|
      ensures !(exists j | i + 1 < j < |a| - 1 ::
                  a[i] == '@' && a[j] == '.' &&
                  forall k | i - 1 <= k <= j + 1 :: !IsLineTerminator(a[k]))
    {
      assert i == 1 || i == 2 || i == 3 || i == 4 || i == 5 || i == 6 || i == 7;
      if a[i] == '@' {
        assert i == 2;
        assert IsLineTerminator(a[i - 1]);
      }
    }
    var t := "see: a@x.com\n";
    assert t[6] == '@' && t[8] == '.';
    assert !IsLineTerminator(t[5]) && !IsLineTerminator(t[9]);
  }

  // ---------------------------------------------------------------------------
  // `minlength: 5` on password: JavaScript measures strings in UTF-16 code units

  function Utf16Length(s: string): (n: nat)
    ensures |s| <= n <= 2 * |s|
    ensures (forall k :: 0 <= k < |s| ==> (s[k] as int) < 0x1_0000) ==> n == |s|
  {
    if s == [] then 0
    else (if (s[0] as int) >= 0x1_0000 then 2 else 1) + Utf16Length(s[1..])
  }

  predicate PasswordLongEnough(p: string) {
    Utf16Length(p) >= MinPasswordLength
  }

  /** Characters outside the Basic Multilingual Plane count twice. */
  lemma PasswordLengthExamples()
    ensures !PasswordLongEnough("abcd") && PasswordLongEnough("hunter2")
    ensures PasswordLongEnough("\U{1F511}\U{1F511}\U{1F511}")
  {
  }

  // ---------------------------------------------------------------------------
  // Document construction and validation on create

  /** `isAdmin: {default: false}`. */
  function AdminFlag(supplied: Option<bool>): (b: bool)
    ensures b <==> supplied == Some(true)
  {
    match supplied
    case None => false
    case Some(v) => v
  }

  /** The document `User.create` builds from its input before validating it:
      the username cast through `trim`, an empty cart and the `isAdmin` default. */
  function NewRecord(id: ObjectId, input: UserInput): (u: User)
    ensures u.username == Trim(input.username)
    ensures u.email == input.email && u.password == input.password
    ensures u.cart == [] && u.id == id
    ensures u.isAdmin <==> input.isAdmin == Some(true)
  {
    User(id, Trim(input.username), input.email, input.password, [], AdminFlag(input.isAdmin))
  }

  /** String `required` fails on the empty string. */
  predicate Present(s: string) {
    |s| > 0
  }

  /** The paths whose validators reject the record, in schema order: `username`
      (required), `email` (required and the pattern; the pattern alone already
      rejects the empty string) and `password` (required and minlength). */
  function ValidationErrors(u: User): (paths: seq<string>)
    ensures ("username" in paths <==> !Present(u.username))
    ensures ("email" in paths <==> !IsEmail(u.email))
    ensures ("password" in paths <==> !PasswordLongEnough(u.password))
    ensures paths == [] <==> Present(u.username) && IsEmail(u.email) && PasswordLongEnough(u.password)
  {
    (if Present(u.username) then [] else ["username"])
    + (if IsEmail(u.email) then [] else ["email"])
    + (if PasswordLongEnough(u.password) then [] else ["password"])
  }

  /** `quantity: {required: true, min: 1}` on a cart line. */
  predicate QuantityValid(q: Option<int>) {
    q.Some? && q.value >= MinQuantity
  }

  // ---------------------------------------------------------------------------
  // bcrypt, with its digest left uninterpreted

  /** The one-way function bcrypt computes from a password and a salt. */
  type Digest = (string, string) -> string

  /** A bcrypt string starts with 29 characters (version, cost, salt); the
      digest follows. */
  const SaltLength: nat := 29

  /** `bcrypt.hash`: the salt (chosen at random, here a parameter) followed by
      the digest of the password under that salt. */
  function Hash(digest: Digest, plain: string, salt: string): (h: string)
    requires |salt| == SaltLength
    ensures |h| >= SaltLength && h[..SaltLength] == salt
  {
    salt + digest(plain, salt)
  }

  /** `bcrypt.compare`: read the salt back from the stored string, recompute the
      digest of the candidate and compare. */
  predicate Compare(digest: Digest, plain: string, hashed: string) {
    |hashed| >= SaltLength && hashed[SaltLength..] == digest(plain, hashed[..SaltLength])
  }

  /** compare(p, hash(p)): a password verifies against its own hash. */
  lemma CompareHash(digest: Digest, plain: string, salt: string)
    requires |salt| == SaltLength
    ensures Compare(digest, plain, Hash(digest, plain, salt))
  {
    var h := Hash(digest, plain, salt);
    assert h[SaltLength..] == digest(plain, salt);
  }

  /** Another candidate verifies against a hash exactly when its digest under
      the same salt collides with the original's. */
  lemma CompareOtherPassword(digest: Digest, plain: string, candidate: string, salt: string)
    requires |salt| == SaltLength
    ensures Compare(digest, candidate, Hash(digest, plain, salt))
        <==> digest(candidate, salt) == digest(plain, salt)
  {
    var h := Hash(digest, plain, salt);
    assert h[SaltLength..] == digest(plain, salt);
  }

  /** `userSchema.methods.isCorrectPassword`. */
  predicate IsCorrectPassword(digest: Digest, stored: User, candidate: string) {
    Compare(digest, candidate, stored.password)
  }

  // ---------------------------------------------------------------------------
  // The `pre('save')` hook

  /** The password the hook leaves on the document: hashed when the document is
      new or its password was modified, otherwise untouched. */
  function SavedPassword(isNew: bool, passwordModified: bool, password: string,
                         digest: Digest, salt: string): (p: string)
    requires |salt| == SaltLength
    ensures (isNew || passwordModified) ==> p == Hash(digest, password, salt)
    ensures !(isNew || passwordModified) ==> p == password
  {
    if isNew || passwordModified then Hash(digest, password, salt) else password
  }

  /** The plaintext given at creation verifies after the first save. */
  lemma CreatedPasswordVerifies(digest: Digest, password: string, modified: bool, salt: string)
    requires |salt| == SaltLength
    ensures Compare(digest, password, SavedPassword(true, modified, password, digest, salt))
  {
    CompareHash(digest, password, salt);
  }

  /** Saving again without touching the password keeps the stored hash, so a
      hash is never hashed a second time. */
  lemma ResaveKeepsHash(isNew: bool, modified: bool, password: string,
                        digest: Digest, salt1: string, salt2: string)
    requires |salt1| == SaltLength && |salt2| == SaltLength
    ensures var stored := SavedPassword(isNew, modified, password, digest, salt1);
            SavedPassword(false, false, stored, digest, salt2) == stored
  {
  }

  /** A Mongoose user document: the field values plus the two pieces of change
      tracking the hook reads (`isNew`, `isModified('password')`). */
  class UserDocument {
    var data: User
    var isNew: bool
    var passwordModified: bool

    /** The document `User.create` builds: new, and every path set while
        building it, the password included, counts as modified. */
    constructor Create(id: ObjectId, input: UserInput)
      ensures data == NewRecord(id, input)
      ensures isNew && passwordModified
    {
      data := NewRecord(id, input);
      isNew := true;
      passwordModified := true;
    }

    /** A document loaded from the collection. */
    constructor Hydrate(stored: User)
      ensures data == stored
      ensures !isNew && !passwordModified
    {
      data := stored;
      isNew := false;
      passwordModified := false;
    }

    /** `doc.password = p`: the path is marked modified only when the value
        assigned differs from the current one. */
    method SetPassword(p: string)
      modifies this
      ensures data == old(data).(password := p)
      ensures passwordModified == (old(passwordModified) || p != old(data.password))
      ensures isNew == old(isNew)
    {
      passwordModified := passwordModified || p != data.password;
      data := data.(password := p);
    }

    /** The `pre('save')` hook: overwrites the password with its hash when the
        document is new or the password was modified; nothing else changes. */
    method PreSave(digest: Digest, salt: string)
      requires |salt| == SaltLength
      modifies this
      ensures data == old(data).(password := SavedPassword(old(isNew), old(passwordModified), old(data.password), digest, salt))
      ensures isNew == old(isNew) && passwordModified == old(passwordModified)
    {
      if isNew || passwordModified {
        data := data.(password := Hash(digest, data.password, salt));
      }
    }

    /** `doc.save()` once validation has passed: the hook runs, then the document
        is persisted, so it is no longer new and nothing is marked modified. */
    method Save(digest: Digest, salt: string)
      requires |salt| == SaltLength
      modifies this
      ensures data == old(data).(password := SavedPassword(old(isNew), old(passwordModified), old(data.password), digest, salt))
      ensures !isNew && !passwordModified
    {
      PreSave(digest, salt);
      isNew := false;
      passwordModified := false;
    }
  }

  /** Creating a document, saving it, and saving it again: the second save keeps
      the first hash and the original plaintext still verifies. */
  method CreateAndResave(digest: Digest, id: ObjectId, input: UserInput, salt1: string, salt2: string)
    returns (stored: User)
    requires |salt1| == SaltLength && |salt2| == SaltLength
    ensures stored.password == Hash(digest, input.password, salt1)
    ensures IsCorrectPassword(digest, stored, input.password)
  {
    var doc := new UserDocument.Create(id, input);
    doc.Save(digest, salt1);
    doc.Save(digest, salt2);
    stored := doc.data;
    CompareHash(digest, input.password, salt1);
  }

  /** Loading a stored user, assigning a password and saving: assigning the
      stored hash again marks nothing, so the hash is kept; any other value is
      hashed under the new salt. */
  method AssignAndSave(digest: Digest, stored: User, p: string, salt: string)
    returns (saved: User)
    requires |salt| == SaltLength
    ensures p == stored.password ==> saved == stored
    ensures p != stored.password ==> saved == stored.(password := Hash(digest, p, salt))
  {
    var doc := new UserDocument.Hydrate(stored);
    doc.SetPassword(p);
    doc.Save(digest, salt);
    saved := doc.data;
  }
}
