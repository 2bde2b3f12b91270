/**
 * The `User` model of src/models/user.model.js: the record and its schema
 * rules, the pre-save hook, the password check and the two token builders,
 * and the collection the model is bound to (`UserStore`), reduced to the
 * queries and writes the account flows make.
 */
module UserModel {
  import opened Wrappers
  import opened JsStrings
  import opened Bcrypt
  import opened Jwt

  /** A document id. Ids are handed out in increasing order, so id order is insertion order. */
  type Id = nat

  /** The cost factor the pre-save hook hashes with. */
  const SaltRounds: nat := 10

  /**
   * A stored user. `coverImage` and `refreshToken` are the two optional
   * fields; `None` is an absent field.
   */
  datatype User = User(
    id: Id,
    username: string,
    email: string,
    fullname: string,
    avatar: string,
    coverImage: Option<string>,
    password: Password,
    refreshToken: Option<string>)

  /** A user as `.select("-password -refreshToken")` returns it. */
  datatype PublicUser = PublicUser(
    id: Id,
    username: string,
    email: string,
    fullname: string,
    avatar: string,
    coverImage: Option<string>)

  function Sanitize(u: User): (p: PublicUser)
    ensures p.id == u.id && p.username == u.username && p.email == u.email
    ensures p.fullname == u.fullname && p.avatar == u.avatar && p.coverImage == u.coverImage
  {
    PublicUser(u.id, u.username, u.email, u.fullname, u.avatar, u.coverImage)
  }

  /** The projection forgets exactly the password and the refresh token. */
  lemma SanitizeForgetsSecrets(u: User, v: User)
    ensures Sanitize(u) == Sanitize(v) <==> u.(password := v.password, refreshToken := v.refreshToken) == v
  {
  }

  /** The fields a registration hands to `User.create`. */
  datatype NewUser = NewUser(
    fullname: string,
    avatar: string,
    coverImage: Option<string>,
    email: string,
    password: string,
    username: string)

  /**
   * The document `User.create` builds from its fields: the schema's
   * `lowercase: true` setters apply to `username` and `email`, the password
   * is still plaintext, and there is no refresh token yet.
   */
  function FromFields(id: Id, f: NewUser): (u: User)
    ensures u.id == id && IsLower(u.username) && IsLower(u.email)
    ensures |u.username| == |f.username| && |u.email| == |f.email|
    ensures u.password == Plain(f.password) && u.refreshToken.None?
  {
    User(id, Lower(f.username), Lower(f.email), f.fullname, f.avatar, f.coverImage, Plain(f.password), None)
  }

  /** Creation stores both unique keys in lower case, whatever case the caller used. */
  lemma FromFieldsLowercases(id: Id, f: NewUser, f': NewUser)
    ensures IsLower(FromFields(id, f).username) && IsLower(FromFields(id, f).email)
    ensures Lower(f.username) == Lower(f'.username) ==> FromFields(id, f).username == FromFields(id, f').username
  {
  }

  /**
   * `required: true` on username, email, fullname, avatar and password.
   * A string field fails `required` when it is empty.
   */
  predicate RequiredPresent(u: User): (present: bool)
    ensures u.avatar == "" || u.fullname == "" ==> !present
    ensures present ==> u.username != "" && u.email != ""
  {
    u.username != "" && u.email != "" && u.fullname != "" && u.avatar != "" && u.password != Plain("")
  }

  /** `lowercase: true` on username and email. */
  predicate Lowercased(u: User) {
    IsLower(u.username) && IsLower(u.email)
  }

  /** The shape of every record in the collection: required fields set, keys lowercased, password hashed. */
  predicate StoredForm(u: User) {
    RequiredPresent(u) && Lowercased(u) && u.password.Digest?
  }

  /** `unique: true` on username and email: no two records share either. */
  ghost predicate Unique(users: map<Id, User>): (unique: bool)
    ensures users == map[] ==> unique
    ensures unique ==> forall i, j :: i in users && j in users && users[i].username == users[j].username ==> i == j
    ensures unique ==> forall i, j :: i in users && j in users && users[i].email == users[j].email ==> i == j
  {
    forall i, j :: i in users && j in users && i != j ==>
      users[i].username != users[j].username && users[i].email != users[j].email
  }

  /** `u` would clash with a stored record on one of the unique indexes. */
  predicate Collides(users: map<Id, User>, u: User) {
    exists k :: k in users && (users[k].username == u.username || users[k].email == u.email)
  }

  /** Adding a record that clashes with nothing keeps the collection unique. */
  lemma InsertKeepsUnique(users: map<Id, User>, id: Id, u: User)
    requires Unique(users) && id !in users && !Collides(users, u)
    ensures Unique(users[id := u])
  {
    var m := users[id := u];
    forall i, j | i in m && j in m && i != j
      ensures m[i].username != m[j].username && m[i].email != m[j].email
    {
      if i == id {
        assert !(users[j].username == u.username || users[j].email == u.email);
      } else if j == id {
        assert !(users[i].username == u.username || users[i].email == u.email);
      }
    }
  }

  // ---------------------------------------------------------------------
  // Password hashing and checking

  /**
   * Mongoose's `isModified("password")`: a new document has every path
   * modified; a loaded one only if the password differs from what was loaded.
   */
  predicate PasswordModified(original: Option<User>, record: User): (modified: bool)
    ensures original.None? ==> modified
    ensures original == Some(record) ==> !modified
    ensures original.Some? && original.value.password == record.password ==> !modified
  {
    original.None? || original.value.password != record.password
  }

  /** What the pre-save hook leaves in the document. */
  function HashIfModified(original: Option<User>, record: User): (saved: User)
    ensures saved.(password := record.password) == record
    ensures !PasswordModified(original, record) ==> saved == record
    ensures PasswordModified(original, record) ==> saved.password.Digest? && saved.password.input == record.password
  {
    if PasswordModified(original, record) then record.(password := Hash(record.password, SaltRounds))
    else record
  }

  /** The hook touches nothing but the password, and leaves an unmodified password as it is. */
  lemma HookChangesOnlyPassword(original: Option<User>, record: User)
    ensures HashIfModified(original, record).(password := record.password) == record
    ensures !PasswordModified(original, record) ==> HashIfModified(original, record).password == record.password
    ensures PasswordModified(original, record) ==> HashIfModified(original, record).password == Hash(record.password, SaltRounds)
  {
  }

  /** `user.isPasswordCorrect(candidate)`: compares against the stored digest. */
  predicate IsPasswordCorrect(u: User, candidate: string): (ok: bool)
    ensures ok ==> u.password.Digest? && u.password != Plain(candidate)
    ensures ok ==> forall q :: Compare(q, u.password) ==> q == candidate
  {
    Compare(candidate, u.password)
  }

  /** Saving plaintext `p` and then checking a candidate succeeds exactly for `p`. */
  lemma SavedPlaintextVerifies(original: Option<User>, record: User, p: string, q: string)
    requires record.password == Plain(p)
    requires original.Some? ==> original.value.password != Plain(p)
    ensures IsPasswordCorrect(HashIfModified(original, record), q) <==> q == p
  {
    HashThenCompare(p, q, SaltRounds);
  }

  /**
   * Re-saving a loaded record without touching its password keeps every
   * password check as it was: a digest is never hashed again.
   */
  lemma ResaveKeepsPasswordChecks(u: User, changed: User, q: string)
    requires changed.password == u.password
    ensures HashIfModified(Some(u), changed).password == u.password
    ensures IsPasswordCorrect(HashIfModified(Some(u), changed), q) == IsPasswordCorrect(u, q)
  {
  }

  /** Why the hook must test `isModified`: hashing a stored digest again locks its owner out. */
  lemma RehashLocksOut(u: User, p: string, q: string)
    requires u.password == Hash(Plain(p), SaltRounds)
    ensures !IsPasswordCorrect(u.(password := Hash(u.password, SaltRounds)), q)
  {
    RehashNeverMatches(p, q, SaltRounds);
  }

  // ---------------------------------------------------------------------
  // Tokens

  /** The two secrets (and nothing else) the model takes from the environment; `""` is an unset variable. */
  datatype Env = Env(accessTokenSecret: string, refreshTokenSecret: string)

  /** The access token's payload: `_id`, `email`, `username`, `fullname`. */
  function AccessClaims(u: User): (c: Claims)
    ensures c.id == Some(u.id)
    ensures c.email == Some(u.email) && c.username == Some(u.username) && c.fullname == Some(u.fullname)
  {
    Claims(Some(u.id), Some(u.email), Some(u.username), Some(u.fullname))
  }

  /** The refresh token's payload: `_id` only. */
  function RefreshClaims(u: User): (c: Claims)
    ensures c.id == Some(u.id)
    ensures c.email.None? && c.username.None? && c.fullname.None?
  {
    Claims(Some(u.id), None, None, None)
  }

  /** Access claims determine, and are determined by, the id and the three profile fields. */
  lemma AccessClaimsExact(u: User, v: User)
    ensures AccessClaims(u).id == Some(u.id)
    ensures AccessClaims(u) == AccessClaims(v) <==>
      (u.id, u.email, u.username, u.fullname) == (v.id, v.email, v.username, v.fullname)
  {
  }

  /** Refresh claims say who the user is and nothing more. */
  lemma RefreshClaimsOnlyIdentify(u: User, v: User)
    ensures RefreshClaims(u).id == Some(u.id)
    ensures RefreshClaims(u).email.None? && RefreshClaims(u).username.None? && RefreshClaims(u).fullname.None?
    ensures RefreshClaims(u) == RefreshClaims(v) <==> u.id == v.id
  {
  }

  /** `user.generateAccessToken()`: signs the access claims with the access secret. */
  function GenerateAccessToken(u: User, env: Env, lib: JwtLib): (r: Result<string, string>)
    ensures r.Success? <==> env.accessTokenSecret != ""
    ensures r.Success? ==> r.value == lib.sign(AccessClaims(u), env.accessTokenSecret)
  {
    Sign(lib, AccessClaims(u), env.accessTokenSecret)
  }

  /** `user.generateRefreshToken()`: signs the refresh claims with the refresh secret. */
  function GenerateRefreshToken(u: User, env: Env, lib: JwtLib): (r: Result<string, string>)
    ensures r.Success? <==> env.refreshTokenSecret != ""
    ensures r.Success? ==> r.value == lib.sign(RefreshClaims(u), env.refreshTokenSecret)
  {
    Sign(lib, RefreshClaims(u), env.refreshTokenSecret)
  }

  /** Under an honest library, the access token decodes, with the access secret, to the access claims. */
  lemma AccessTokenRoundTrip(u: User, env: Env, lib: JwtLib)
    requires Sound(lib) && env.accessTokenSecret != ""
    ensures GenerateAccessToken(u, env, lib).Success?
    ensures Verify(lib, GenerateAccessToken(u, env, lib).value, env.accessTokenSecret) == Success(AccessClaims(u))
  {
  }

  // ---------------------------------------------------------------------
  // Documents and the collection

  /** A mongoose document: the record being edited and, for a loaded one, the record as loaded. */
  class Document {
    var record: User
    const original: Option<User>

    /** A document for a record that is not yet in the collection. */
    constructor New(u: User)
      ensures record == u && original == None
    {
      record := u;
      original := None;
    }

    /** A document hydrated from a stored record. */
    constructor Load(u: User)
      ensures record == u && original == Some(u)
    {
      record := u;
      original := Some(u);
    }

    /** `userSchema.pre("save", …)`: hashes the password only when it was modified. */
    method PreSave()
      modifies this
      ensures record == HashIfModified(original, old(record))
    {
      if PasswordModified(original, record) {
        record := record.(password := Hash(record.password, SaltRounds));
      }
    }
  }

  /** One call made to the database, in the order the flows make them. */
  datatype DbOp =
    | FindOneOp(username: Option<string>, email: Option<string>)
    | FindByIdOp(query: Option<Id>)
    | CreateOp
    | SaveOp(id: Id)
    | UpdateOp(id: Id)

  /** Why `User.create` rejected a document. */
  datatype StoreError = ValidationError | DuplicateKey

  /**
   * `$or: [{username}, {email}]`: an absent condition matches nothing, and
   * the schema's lowercase setter applies to the query values too.
   */
  predicate Matches(u: User, username: Option<string>, email: Option<string>): (m: bool)
    ensures username.None? && email.None? ==> !m
    ensures username.Some? && u.username == Lower(username.value) ==> m
    ensures email.Some? && u.email == Lower(email.value) ==> m
  {
    || (username.Some? && u.username == Lower(username.value))
    || (email.Some? && u.email == Lower(email.value))
  }

  /** The first id in `[from, bound)` whose record matches the query. */
  function FirstMatchFrom(users: map<Id, User>, username: Option<string>, email: Option<string>, from: nat, bound: nat): (r: Option<Id>)
    decreases bound - from
    ensures r.Some? ==> from <= r.value < bound && r.value in users && Matches(users[r.value], username, email)
    ensures r.Some? ==> forall k :: from <= k < r.value && k in users ==> !Matches(users[k], username, email)
    ensures r.None? ==> forall k :: from <= k < bound && k in users ==> !Matches(users[k], username, email)
  {
    if from >= bound then None
    else if from in users && Matches(users[from], username, email) then Some(from)
    else FirstMatchFrom(users, username, email, from + 1, bound)
  }

  /**
   * The record `findOne` returns: the match with the lowest id. The query has
   * no sort, so this takes the collection's natural order to be id order.
   */
  function FirstMatch(users: map<Id, User>, bound: nat, username: Option<string>, email: Option<string>): Option<Id> {
    FirstMatchFrom(users, username, email, 0, bound)
  }

  /** The `users` collection. */
  class UserStore {
    var users: map<Id, User>
    var nextId: Id
    /** Every call made to the database so far. */
    ghost var ops: seq<DbOp>

    /** Ids are below the counter and agree with their records; every record has its stored form; keys are unique. */
    ghost predicate Valid()
      reads this
    {
      && (forall id | id in users :: id < nextId && users[id].id == id && StoredForm(users[id]))
      && Unique(users)
    }

    constructor ()
      ensures Valid() && users == map[] && nextId == 0 && ops == []
    {
      users := map[];
      nextId := 0;
      ops := [];
    }

    /** Under `Valid`, `FirstMatch` finds a record exactly when one matches. */
    lemma FirstMatchComplete(username: Option<string>, email: Option<string>)
      requires Valid()
      ensures FirstMatch(users, nextId, username, email).None? <==>
        forall k :: k in users ==> !Matches(users[k], username, email)
    {
    }

    /** `User.findOne({$or: [{username}, {email}]})`. */
    method FindOne(username: Option<string>, email: Option<string>) returns (r: Option<User>)
      requires Valid()
      modifies this`ops
      ensures ops == old(ops) + [FindOneOp(username, email)]
      ensures r.None? <==> forall k :: k in users ==> !Matches(users[k], username, email)
      ensures r.Some? ==> r.value.id in users && users[r.value.id] == r.value && Matches(r.value, username, email)
      ensures r.Some? ==> Some(r.value.id) == FirstMatch(users, nextId, username, email)
    {
      ops := ops + [FindOneOp(username, email)];
      FirstMatchComplete(username, email);
      var found := FirstMatch(users, nextId, username, email);
      r := if found.Some? then Some(users[found.value]) else None;
    }

    /** `User.findById(id)`: a hydrated document, or null. */
    method FindDocumentById(id: Id) returns (d: Document?)
      modifies this`ops
      ensures ops == old(ops) + [FindByIdOp(Some(id))]
      ensures id in users <==> d != null
      ensures d != null ==> fresh(d) && d.record == users[id] && d.original == Some(users[id])
    {
      ops := ops + [FindByIdOp(Some(id))];
      if id in users {
        d := new Document.Load(users[id]);
      } else {
        d := null;
      }
    }

    /** `User.findById(id).select("-password -refreshToken")`; an undefined id finds nothing. */
    method FindPublicById(id: Option<Id>) returns (r: Option<PublicUser>)
      modifies this`ops
      ensures ops == old(ops) + [FindByIdOp(id)]
      ensures r == if id.Some? && id.value in users then Some(Sanitize(users[id.value])) else None
    {
      ops := ops + [FindByIdOp(id)];
      r := if id.Some? && id.value in users then Some(Sanitize(users[id.value])) else None;
    }

    /**
     * `User.create(fields)`: builds the document, validates the required
     * fields, runs the pre-save hook, and inserts unless a unique index
     * already holds the username or the email.
     */
    method Create(fields: NewUser) returns (r: Result<Id, StoreError>)
      requires Valid()
      modifies this
      ensures Valid()
      ensures ops == old(ops) + [CreateOp]
      ensures !RequiredPresent(FromFields(old(nextId), fields)) ==>
        r == Failure(ValidationError) && users == old(users) && nextId == old(nextId)
      ensures RequiredPresent(FromFields(old(nextId), fields)) && Collides(old(users), FromFields(old(nextId), fields)) ==>
        r == Failure(DuplicateKey) && users == old(users) && nextId == old(nextId)
      ensures RequiredPresent(FromFields(old(nextId), fields)) && !Collides(old(users), FromFields(old(nextId), fields)) ==>
        && r == Success(old(nextId))
        && users == old(users)[old(nextId) := HashIfModified(None, FromFields(old(nextId), fields))]
        && nextId == old(nextId) + 1
    {
      ops := ops + [CreateOp];
      var doc := new Document.New(FromFields(nextId, fields));
      if !RequiredPresent(doc.record) {
        return Failure(ValidationError);
      }
      doc.PreSave();
      if Collides(users, doc.record) {
        return Failure(DuplicateKey);
      }
      InsertKeepsUnique(users, nextId, doc.record);
      users := users[nextId := doc.record];
      r := Success(nextId);
      nextId := nextId + 1;
    }

    /**
     * `doc.save({ validateBeforeSave: false })` for a document loaded from
     * this collection whose id, unique keys and required profile fields
     * were not edited: runs the pre-save hook and writes the document back.
     */
    method Save(doc: Document)
      requires Valid()
      requires doc.original.Some? && doc.original.value.id in users && users[doc.original.value.id] == doc.original.value
      requires doc.record.(password := doc.original.value.password,
                           refreshToken := doc.original.value.refreshToken,
                           coverImage := doc.original.value.coverImage) == doc.original.value
      modifies this, doc
      ensures Valid()
      ensures doc.record == HashIfModified(doc.original, old(doc.record))
      ensures users == old(users)[doc.original.value.id := doc.record]
      ensures nextId == old(nextId)
      ensures ops == old(ops) + [SaveOp(doc.original.value.id)]
    {
      doc.PreSave();
      var id := doc.original.value.id;
      assert doc.record.id == id;
      users := users[id := doc.record];
      ops := ops + [SaveOp(id)];
    }

    /** `User.findByIdAndUpdate(id, { $set: { refreshToken: undefined } })`. */
    method ClearRefreshToken(id: Id)
      requires Valid()
      modifies this
      ensures Valid()
      ensures users == if id in old(users) then old(users)[id := old(users)[id].(refreshToken := None)] else old(users)
      ensures nextId == old(nextId)
      ensures ops == old(ops) + [UpdateOp(id)]
    {
      if id in users {
        users := users[id := users[id].(refreshToken := None)];
      }
      ops := ops + [UpdateOp(id)];
    }
  }
}
