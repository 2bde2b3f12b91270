/**
 * The account flows of src/controllers/user.controller.js: registration,
 * login (with token issuance) and logout. Each is a short-circuiting ladder
 * of checks that ends in a status code and leaves the store unchanged or
 * makes one change: one new record, one overwritten refresh token, or one
 * cleared refresh token.
 */
module UserController {
  import opened Wrappers
  import opened JsStrings
  import opened Jwt
  import opened ApiErrors
  import opened UserModel
  import opened Cloudinary
  import opened AuthMiddleware

  /** The text fields of a registration form. */
  datatype RegisterBody = RegisterBody(fullname: string, email: string, username: string, password: string)

  /** A file the upload middleware stored locally. */
  datatype UploadedFile = UploadedFile(path: string)

  /** `req.files`: the stored avatar files (none when the part was absent) and, if sent, the cover images. */
  datatype Files = Files(avatar: seq<UploadedFile>, coverImage: Option<seq<UploadedFile>>)

  /** The JSON body of a login; an absent key is `None`. */
  datatype LoginBody = LoginBody(username: Option<string>, email: Option<string>, password: string)

  datatype CookieOptions = CookieOptions(httpOnly: bool, secure: bool)

  /** Both session cookies are HTTP-only and secure. */
  const SessionCookie := CookieOptions(true, true)

  datatype CookieOp =
    | SetCookie(name: string, value: string, options: CookieOptions)
    | ClearCookie(name: string, options: CookieOptions)

  /** The `data` part of a success body. */
  datatype Data =
    | RegisteredUser(user: PublicUser)
    | LoggedIn(loggedInUser: Option<PublicUser>, accessToken: string, refreshToken: string)
    | NoData

  /** An HTTP response: its status, the JSON body's `statusCode`, `data` and `message`, and the cookie headers. */
  datatype Response = Response(status: int, statusCode: int, data: Data, message: string, cookies: seq<CookieOp>)

  /**
   * Why a flow failed: an `ApiError` it raised, or a rejection from the
   * database, which reaches the framework's default handler as a 500.
   */
  datatype FlowError = Raised(error: ApiError) | Rejected(cause: StoreError)

  datatype TokenPair = TokenPair(accessToken: string, refreshToken: string)

  /** `[fullname, email, username, password].some((field) => field.trim() === "")`. */
  predicate AnyBlank(b: RegisterBody): (blank: bool)
    ensures b.fullname == "" || b.email == "" || b.username == "" || b.password == "" ==> blank
  {
    var fields := [b.fullname, b.email, b.username, b.password];
    assert fields[0] in fields && fields[1] in fields && fields[2] in fields && fields[3] in fields;
    exists f :: f in fields && Trim(f) == ""
  }

  /** A registration is blank exactly when one of its four fields is empty or white space only. */
  lemma AnyBlankMeans(b: RegisterBody)
    ensures AnyBlank(b) <==>
      || (forall i :: 0 <= i < |b.fullname| ==> IsJsWhiteSpace(b.fullname[i]))
      || (forall i :: 0 <= i < |b.email| ==> IsJsWhiteSpace(b.email[i]))
      || (forall i :: 0 <= i < |b.username| ==> IsJsWhiteSpace(b.username[i]))
      || (forall i :: 0 <= i < |b.password| ==> IsJsWhiteSpace(b.password[i]))
  {
    AnyBlankFieldwise(b);
  }

  /** `some` over the four-element array is a disjunction over the four fields. */
  lemma AnyBlankFieldwise(b: RegisterBody)
    ensures AnyBlank(b) <==> Trim(b.fullname) == "" || Trim(b.email) == "" || Trim(b.username) == "" || Trim(b.password) == ""
  {
    var fields := [b.fullname, b.email, b.username, b.password];
    forall f | f in fields ensures f == b.fullname || f == b.email || f == b.username || f == b.password {
      var i :| 0 <= i < |fields| && fields[i] == f;
    }
    assert b.fullname in fields && b.email in fields && b.username in fields && b.password in fields;
  }

  /** A non-blank field is not empty, and neither is its lowercase form. */
  lemma NotBlankNotEmpty(s: string)
    requires Trim(s) != ""
    ensures s != "" && Lower(s) != ""
  {
  }

  /** `req.files?.avatar[0]?.path`. */
  function AvatarPath(files: Option<Files>): (path: Option<string>)
    ensures files.None? ==> path.None?
    ensures path.Some? ==> files.Some? && files.value.avatar != [] && path.value == files.value.avatar[0].path
  {
    if files.Some? && |files.value.avatar| > 0 then Some(files.value.avatar[0].path) else None
  }

  /** The path of the first cover image, when `req.files.coverImage` is a non-empty array. */
  function CoverImagePath(files: Option<Files>): (path: Option<string>)
    ensures files.None? || files.value.coverImage.None? ==> path.None?
    ensures path.Some? ==> files.Some? && files.value.coverImage.Some? && files.value.coverImage.value != []
                           && path.value == files.value.coverImage.value[0].path
  {
    if files.Some? && files.value.coverImage.Some? && |files.value.coverImage.value| > 0
    then Some(files.value.coverImage.value[0].path)
    else None
  }

  /** The paths an upload call actually sends to the host. */
  function Sent(path: Option<string>): seq<string> {
    if Truthy(path) then [path.value] else []
  }

  /** What an upload call returns for a path: nothing for a falsy path, the host's answer otherwise. */
  function Uploaded(respond: string -> Option<string>, path: Option<string>): Option<string> {
    if Truthy(path) then respond(path.value) else None
  }

  /** A stored record has the form's username or email (compared as the query compares them). */
  predicate Taken(users: map<Id, User>, b: RegisterBody) {
    exists k :: k in users && Matches(users[k], Some(b.username), Some(b.email))
  }

  /** `coverImage?.url || ""`. */
  function CoverUrl(cover: Option<string>): (url: string)
    ensures url == "" <==> cover.None? || cover.value == ""
    ensures url != "" ==> url == cover.value
  {
    if cover.Some? then cover.value else ""
  }

  /** The fields registration passes to `User.create`. */
  function RegistrationFields(b: RegisterBody, avatarUrl: string, cover: Option<string>): (f: NewUser)
    ensures IsLower(f.username) && |f.username| == |b.username|
    ensures f.fullname == b.fullname && f.email == b.email && f.password == b.password && f.avatar == avatarUrl
    ensures f.coverImage == Some(if cover.Some? then cover.value else "")
  {
    NewUser(b.fullname, avatarUrl, Some(CoverUrl(cover)), b.email, b.password, Lower(b.username))
  }

  /**
   * The record a successful registration stores: keys lowercased, avatar
   * and cover URLs as uploaded, and a password that checks against exactly
   * the plaintext of the form.
   */
  lemma RegisteredRecord(id: Id, b: RegisterBody, avatarUrl: string, cover: Option<string>, q: string)
    ensures var u := HashIfModified(None, FromFields(id, RegistrationFields(b, avatarUrl, cover)));
      && u.id == id && u.username == Lower(b.username) && u.email == Lower(b.email) && u.fullname == b.fullname
      && u.avatar == avatarUrl && u.coverImage == Some(CoverUrl(cover)) && u.refreshToken == None
      && (IsPasswordCorrect(u, q) <==> q == b.password)
  {
    LowerIdempotent(b.username);
    SavedPlaintextVerifies(None, FromFields(id, RegistrationFields(b, avatarUrl, cover)), b.password, q);
  }

  /** A form past the field check has four non-empty fields. */
  lemma NotBlankFields(b: RegisterBody)
    requires !AnyBlank(b)
    ensures b.fullname != "" && b.email != "" && b.username != "" && b.password != ""
  {
    var fields := [b.fullname, b.email, b.username, b.password];
    assert fields[0] == b.fullname && fields[1] == b.email && fields[2] == b.username && fields[3] == b.password;
    NotBlankNotEmpty(b.fullname);
    NotBlankNotEmpty(b.email);
    NotBlankNotEmpty(b.username);
    NotBlankNotEmpty(b.password);
  }

  /** Past the uniqueness check, the record registration creates clashes with no stored record. */
  lemma RegistrationUnclashed(users: map<Id, User>, id: Id, b: RegisterBody, avatarUrl: string, cover: Option<string>)
    requires !Taken(users, b)
    ensures !Collides(users, FromFields(id, RegistrationFields(b, avatarUrl, cover)))
  {
    var u := FromFields(id, RegistrationFields(b, avatarUrl, cover));
    LowerIdempotent(b.username);
    assert u.username == Lower(b.username) && u.email == Lower(b.email);
    forall k | k in users
      ensures !(users[k].username == u.username || users[k].email == u.email)
    {
      assert !Matches(users[k], Some(b.username), Some(b.email));
    }
  }

  /**
   * Past the field check, the record registration creates fails `required`
   * only for an empty avatar URL.
   */
  lemma RegistrationComplete(id: Id, b: RegisterBody, avatarUrl: string, cover: Option<string>)
    requires !AnyBlank(b)
    ensures RequiredPresent(FromFields(id, RegistrationFields(b, avatarUrl, cover))) <==> avatarUrl != ""
  {
    NotBlankFields(b);
    var u := FromFields(id, RegistrationFields(b, avatarUrl, cover));
    assert |u.username| == |b.username| && |u.email| == |b.email|;
  }

  /** Both secrets are set, so both tokens can be signed. */
  predicate CanIssueTokens(env: Env) {
    env.accessTokenSecret != "" && env.refreshTokenSecret != ""
  }

  /**
   * The access cookie a successful login sets authenticates, against the
   * collection as login leaves it, as the user who logged in.
   */
  lemma LoginSessionAuthenticates(users: map<Id, User>, id: Id, t: string, authorization: Option<string>, env: Env, lib: JwtLib)
    requires Sound(lib) && CanIssueTokens(env)
    requires id in users && users[id].id == id
    ensures Authenticate(users[id := users[id].(refreshToken := Some(t))], Some(lib.sign(AccessClaims(users[id]), env.accessTokenSecret)),
                         authorization, env, lib) == Success(Sanitize(users[id]))
  {
    var after := users[id := users[id].(refreshToken := Some(t))];
    assert AccessClaims(after[id]) == AccessClaims(users[id]);
    IssuedAccessTokenAuthenticates(after, id, authorization, env, lib);
  }

  /**
   * Logout clears only the stored refresh token, so every request
   * authenticates afterwards exactly as before: an access token issued
   * earlier stays usable until it expires.
   */
  lemma LogoutKeepsAccessTokens(users: map<Id, User>, id: Id, cookie: Option<string>, authorization: Option<string>, env: Env, lib: JwtLib)
    requires id in users
    ensures Authenticate(users[id := users[id].(refreshToken := None)], cookie, authorization, env, lib)
         == Authenticate(users, cookie, authorization, env, lib)
  {
    var after := users[id := users[id].(refreshToken := None)];
    assert forall k :: k in after <==> k in users;
    assert forall k :: k in users ==> Sanitize(after[k]) == Sanitize(users[k]);
  }

  /** The request handlers, over one collection, one media host, one environment and one token library. */
  class Controller {
    const store: UserStore
    const media: MediaHost
    const env: Env
    const jwt: JwtLib

    constructor (store: UserStore, media: MediaHost, env: Env, jwt: JwtLib)
      ensures this.store == store && this.media == media && this.env == env && this.jwt == jwt
    {
      this.store := store;
      this.media := media;
      this.env := env;
      this.jwt := jwt;
    }

    /**
     * `generateAccessAndRefreshTokens(userId)`: signs both tokens for the
     * stored user, stores the refresh token on that user only, and returns
     * the pair; any failure becomes a 500.
     */
    method GenerateAccessAndRefreshTokens(userId: Id) returns (r: Result<TokenPair, ApiError>)
      requires store.Valid()
      modifies store
      ensures store.Valid() && store.nextId == old(store.nextId)
      ensures userId in old(store.users) && CanIssueTokens(env) ==>
        var u := old(store.users)[userId];
        && r == Success(TokenPair(jwt.sign(AccessClaims(u), env.accessTokenSecret), jwt.sign(RefreshClaims(u), env.refreshTokenSecret)))
        && store.users == old(store.users)[userId := u.(refreshToken := Some(r.value.refreshToken))]
        && store.ops == old(store.ops) + [FindByIdOp(Some(userId)), SaveOp(userId)]
      ensures !(userId in old(store.users) && CanIssueTokens(env)) ==>
        && r == Failure(Raise(500, "Something went wrong, please wait some time"))
        && store.users == old(store.users)
        && store.ops == old(store.ops) + [FindByIdOp(Some(userId))]
    {
      var user := store.FindDocumentById(userId);
      if user == null {
        return Failure(Raise(500, "Something went wrong, please wait some time"));
      }
      var accessToken := GenerateAccessToken(user.record, env, jwt);
      if accessToken.Failure? {
        return Failure(Raise(500, "Something went wrong, please wait some time"));
      }
      var refreshToken := GenerateRefreshToken(user.record, env, jwt);
      if refreshToken.Failure? {
        return Failure(Raise(500, "Something went wrong, please wait some time"));
      }
      user.record := user.record.(refreshToken := Some(refreshToken.value));
      store.Save(user);
      r := Success(TokenPair(accessToken.value, refreshToken.value));
    }

    /**
     * The tail of `registerUser` once the avatar is uploaded: `User.create`,
     * the sanitised re-fetch, and the 201 response.
     */
    method CreateRegisteredUser(body: RegisterBody, avatarUrl: string, cover: Option<string>) returns (r: Result<Response, FlowError>)
      requires store.Valid() && !AnyBlank(body) && !Taken(store.users, body)
      modifies store
      ensures store.Valid()
      ensures var id := old(store.nextId);
        var record := HashIfModified(None, FromFields(id, RegistrationFields(body, avatarUrl, cover)));
        if avatarUrl == "" then
          && r == Failure(Rejected(ValidationError))
          && store.users == old(store.users) && store.nextId == old(store.nextId)
          && store.ops == old(store.ops) + [CreateOp]
        else
          && r == Success(Response(201, 200, RegisteredUser(Sanitize(record)), "User registered successfully", []))
          && store.users == old(store.users)[id := record] && store.nextId == id + 1
          && store.ops == old(store.ops) + [CreateOp, FindByIdOp(Some(id))]
    {
      var fields := RegistrationFields(body, avatarUrl, cover);
      RegistrationUnclashed(store.users, store.nextId, body, avatarUrl, cover);
      RegistrationComplete(store.nextId, body, avatarUrl, cover);
      var created := store.Create(fields);
      if created.Failure? {
        return Failure(Rejected(created.error));
      }
      var createdUser := store.FindPublicById(Some(created.value));
      if createdUser.None? {
        return Failure(Raised(Raise(500, "Something went wrong while registering the user")));
      }
      r := Success(Response(201, 200, RegisteredUser(createdUser.value), "User registered successfully", []));
    }

    /**
     * `registerUser`: field check, uniqueness check, avatar presence, both
     * uploads, avatar result, create, re-fetch, 201.
     */
    method RegisterUser(body: RegisterBody, files: Option<Files>) returns (r: Result<Response, FlowError>)
      requires store.Valid()
      modifies store, media
      ensures store.Valid()
      // a blank field: 400 before any query or upload
      ensures AnyBlank(body) ==>
        r == Failure(Raised(Raise(400, "All fields are required"))) && unchanged(store, media)
      // a stored record has the username or the email: 409 after the one query, nothing uploaded or written
      ensures !AnyBlank(body) && Taken(old(store.users), body) ==>
        && r == Failure(Raised(Raise(409, "User with these credentials already exists")))
        && store.users == old(store.users) && store.nextId == old(store.nextId)
        && store.ops == old(store.ops) + [FindOneOp(Some(body.username), Some(body.email))]
        && unchanged(media)
      // no avatar path: 400, nothing uploaded or written
      ensures !AnyBlank(body) && !Taken(old(store.users), body) && !Truthy(AvatarPath(files)) ==>
        && r == Failure(Raised(Raise(400, "Avatar file is required")))
        && store.users == old(store.users) && store.nextId == old(store.nextId)
        && store.ops == old(store.ops) + [FindOneOp(Some(body.username), Some(body.email))]
        && unchanged(media)
      // past the avatar-path check: both uploads are attempted, avatar first, before the avatar result is looked at
      ensures !AnyBlank(body) && !Taken(old(store.users), body) && Truthy(AvatarPath(files)) ==>
        media.uploads == old(media.uploads) + [AvatarPath(files).value] + Sent(CoverImagePath(files))
      // the avatar upload failed: 400, nothing written
      ensures !AnyBlank(body) && !Taken(old(store.users), body) && Truthy(AvatarPath(files))
              && media.respond(AvatarPath(files).value).None? ==>
        && r == Failure(Raised(Raise(400, "Failed to upload avatar file")))
        && store.users == old(store.users) && store.nextId == old(store.nextId)
        && store.ops == old(store.ops) + [FindOneOp(Some(body.username), Some(body.email))]
      // the avatar was uploaded: the create is rejected only for an empty avatar URL; otherwise one new record and 201
      ensures !AnyBlank(body) && !Taken(old(store.users), body) && Truthy(AvatarPath(files))
              && media.respond(AvatarPath(files).value).Some? ==>
        var avatarUrl := media.respond(AvatarPath(files).value).value;
        var id := old(store.nextId);
        var record := HashIfModified(None, FromFields(id, RegistrationFields(body, avatarUrl, Uploaded(media.respond, CoverImagePath(files)))));
        if avatarUrl == "" then
          && r == Failure(Rejected(ValidationError))
          && store.users == old(store.users) && store.nextId == old(store.nextId)
          && store.ops == old(store.ops) + [FindOneOp(Some(body.username), Some(body.email)), CreateOp]
        else
          && r == Success(Response(201, 200, RegisteredUser(Sanitize(record)), "User registered successfully", []))
          && store.users == old(store.users)[id := record] && store.nextId == id + 1
          && store.ops == old(store.ops) + [FindOneOp(Some(body.username), Some(body.email)), CreateOp, FindByIdOp(Some(id))]
    {
      if AnyBlank(body) {
        return Failure(Raised(Raise(400, "All fields are required")));
      }
      var existedUser := store.FindOne(Some(body.username), Some(body.email));
      if existedUser.Some? {
        return Failure(Raised(Raise(409, "User with these credentials already exists")));
      }
      var avatarLocalPath := AvatarPath(files);
      var coverImageLocalPath := CoverImagePath(files);
      if !Truthy(avatarLocalPath) {
        return Failure(Raised(Raise(400, "Avatar file is required")));
      }
      var avatar := media.UploadOnCloudinary(avatarLocalPath);
      var coverImage := media.UploadOnCloudinary(coverImageLocalPath);
      if avatar.None? {
        return Failure(Raised(Raise(400, "Failed to upload avatar file")));
      }
      r := CreateRegisteredUser(body, avatar.value, coverImage);
    }

    /**
     * `loginUser`: key check, lookup, password check, token issuance, the
     * sanitised re-fetch, and a 200 that sets both cookies.
     */
    method LoginUser(body: LoginBody) returns (r: Result<Response, FlowError>)
      requires store.Valid()
      modifies store
      ensures store.Valid() && store.nextId == old(store.nextId)
      // neither key: 400 before any query
      ensures !Truthy(body.username) && !Truthy(body.email) ==>
        r == Failure(Raised(Raise(400, "Username or email is required"))) && unchanged(store)
      // no record has either key: 404 after the one query
      ensures (Truthy(body.username) || Truthy(body.email))
              && FirstMatch(old(store.users), old(store.nextId), body.username, body.email).None? ==>
        && r == Failure(Raised(Raise(404, "User does not exist")))
        && store.users == old(store.users)
        && store.ops == old(store.ops) + [FindOneOp(body.username, body.email)]
      // the first matching record does not check against the password: 401, nothing written
      ensures (Truthy(body.username) || Truthy(body.email))
              && FirstMatch(old(store.users), old(store.nextId), body.username, body.email).Some? ==>
        var id := FirstMatch(old(store.users), old(store.nextId), body.username, body.email).value;
        var u := old(store.users)[id];
        && (!IsPasswordCorrect(u, body.password) ==>
          && r == Failure(Raised(Raise(401, "Invalid user credentials")))
          && store.users == old(store.users)
          && store.ops == old(store.ops) + [FindOneOp(body.username, body.email)])
        // the password checks but a secret is missing: the 500 of the token step, nothing written
        && (IsPasswordCorrect(u, body.password) && !CanIssueTokens(env) ==>
          && r == Failure(Raised(Raise(500, "Something went wrong, please wait some time")))
          && store.users == old(store.users)
          && store.ops == old(store.ops) + [FindOneOp(body.username, body.email), FindByIdOp(Some(id))])
        // success: both tokens signed for that record, the refresh token stored on it alone, both cookies set
        && (IsPasswordCorrect(u, body.password) && CanIssueTokens(env) ==>
          var a := jwt.sign(AccessClaims(u), env.accessTokenSecret);
          var t := jwt.sign(RefreshClaims(u), env.refreshTokenSecret);
          && r == Success(Response(200, 200, LoggedIn(Some(Sanitize(u)), a, t), "User logged in successfully",
                                   [SetCookie("accessToken", a, SessionCookie), SetCookie("refreshToken", t, SessionCookie)]))
          && store.users == old(store.users)[id := u.(refreshToken := Some(t))]
          && store.ops == old(store.ops) + [FindOneOp(body.username, body.email), FindByIdOp(Some(id)), SaveOp(id), FindByIdOp(Some(id))])
    {
      if !Truthy(body.username) && !Truthy(body.email) {
        return Failure(Raised(Raise(400, "Username or email is required")));
      }
      var user := store.FindOne(body.username, body.email);
      if user.None? {
        return Failure(Raised(Raise(404, "User does not exist")));
      }
      var isPasswordValid := IsPasswordCorrect(user.value, body.password);
      if !isPasswordValid {
        return Failure(Raised(Raise(401, "Invalid user credentials")));
      }
      var tokens := GenerateAccessAndRefreshTokens(user.value.id);
      if tokens.Failure? {
        return Failure(Raised(tokens.error));
      }
      var loggedInUser := store.FindPublicById(Some(user.value.id));
      r := Success(Response(200, 200, LoggedIn(loggedInUser, tokens.value.accessToken, tokens.value.refreshToken),
                            "User logged in successfully",
                            [SetCookie("accessToken", tokens.value.accessToken, SessionCookie),
                             SetCookie("refreshToken", tokens.value.refreshToken, SessionCookie)]));
    }

    /**
     * `logoutUser`, behind the guard that attached `req.user`: clears the
     * stored refresh token of that user only and clears both cookies.
     */
    method LogoutUser(req: Request) returns (r: Response)
      requires store.Valid() && req.user.Some?
      modifies store
      ensures store.Valid() && store.nextId == old(store.nextId)
      ensures var id := req.user.value.id;
        store.users == if id in old(store.users) then old(store.users)[id := old(store.users)[id].(refreshToken := None)] else old(store.users)
      ensures store.ops == old(store.ops) + [UpdateOp(req.user.value.id)]
      ensures r == Response(200, 200, NoData, "User logged out",
                            [ClearCookie("accessToken", SessionCookie), ClearCookie("refreshToken", SessionCookie)])
    {
      store.ClearRefreshToken(req.user.value.id);
      r := Response(200, 200, NoData, "User logged out",
                    [ClearCookie("accessToken", SessionCookie), ClearCookie("refreshToken", SessionCookie)]);
    }
  }
}
