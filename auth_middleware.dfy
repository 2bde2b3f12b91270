/**
 * `verifyJWT` of src/middlewares/auth.middleware.js: takes the access token
 * from the `accessToken` cookie or the `Authorization` header, verifies it
 * with the access secret, loads the sanitised user it names and attaches it
 * to the request; every failure becomes a 401.
 */
module AuthMiddleware {
  import opened Wrappers
  import opened JsStrings
  import opened Jwt
  import opened ApiErrors
  import opened UserModel

  /**
   * `req.cookies?.accessToken || req.header("Authorization")?.replace("Bearer", "")`.
   * A truthy cookie wins; otherwise the header, if there is one, with its
   * first "Bearer" removed.
   */
  function ExtractToken(cookie: Option<string>, authorization: Option<string>): (token: Option<string>)
    ensures Truthy(cookie) ==> token == cookie
    ensures !Truthy(cookie) ==> (token.Some? <==> authorization.Some?)
  {
    if Truthy(cookie) then cookie
    else if authorization.Some? then Some(ReplaceFirst(authorization.value, "Bearer", ""))
    else None
  }

  /**
   * Without a usable cookie, a header that starts with "Bearer" yields the
   * rest of the header as it is (for "Bearer <token>", that is " <token>",
   * with the separating space still in front).
   */
  lemma BearerHeaderToken(cookie: Option<string>, rest: string)
    requires !Truthy(cookie)
    ensures ExtractToken(cookie, Some("Bearer" + rest)) == Some(rest)
  {
    ReplaceFirstAtStart("Bearer", rest);
  }

  /** The library refuses any token that starts with a space, as a compact JWS never does. */
  ghost predicate RejectsLeadingSpace(lib: JwtLib) {
    forall t: string, k: string :: t != "" && t[0] == ' ' ==> lib.verify(t, k).Failure?
  }

  /**
   * Consequently, without a usable cookie, the standard `Bearer <token>`
   * header is refused with a 401 whatever the token: the space left in front
   * by the replace reaches `verify`.
   */
  lemma BearerSpaceHeaderRefused(users: map<Id, User>, cookie: Option<string>, token: string, env: Env, lib: JwtLib)
    requires !Truthy(cookie) && RejectsLeadingSpace(lib)
    ensures var r := Authenticate(users, cookie, Some("Bearer " + token), env, lib);
      r.Failure? && r.error.statusCode == 401
  {
    assert "Bearer " + token == "Bearer" + (" " + token);
    BearerHeaderToken(cookie, " " + token);
    var t := " " + token;
    assert t != "" && t[0] == ' ';
    assert lib.verify(t, env.accessTokenSecret).Failure?;
  }

  /** Without a usable cookie, a header that never mentions "Bearer" is taken whole. */
  lemma PlainHeaderToken(cookie: Option<string>, header: string)
    requires !Truthy(cookie)
    requires forall j :: 0 <= j <= |header| ==> !OccursAt(header, "Bearer", j)
    ensures ExtractToken(cookie, Some(header)) == Some(header)
  {
  }

  /** The catch block: `new ApiError(401, error?.message || "Invalid access token")`. */
  function Rethrow(message: string): (e: ApiError)
    ensures Conforms(e) && e.statusCode == 401
    ensures e.message == if message == "" then "Invalid access token" else message
  {
    Raise(401, if message == "" then "Invalid access token" else message)
  }

  /** The id `verifyJWT` looks up, when it gets as far as a lookup: the decoded `_id`. */
  function DecodedId(cookie: Option<string>, authorization: Option<string>, env: Env, lib: JwtLib): Option<Option<Id>> {
    var token := ExtractToken(cookie, authorization);
    if !Truthy(token) then None
    else match Verify(lib, token.value, env.accessTokenSecret)
      case Failure(_) => None
      case Success(claims) => Some(claims.id)
  }

  /**
   * What `verifyJWT` decides for a request: the sanitised user to attach,
   * or the 401 error it raises.
   */
  function Authenticate(users: map<Id, User>, cookie: Option<string>, authorization: Option<string>, env: Env, lib: JwtLib): (r: Result<PublicUser, ApiError>)
    ensures r.Failure? ==> Conforms(r.error) && r.error.statusCode == 401 && r.error.message != ""
    ensures !Truthy(ExtractToken(cookie, authorization)) ==> r == Failure(Rethrow("Unauthorized request"))
    ensures r.Success? <==> var d := DecodedId(cookie, authorization, env, lib); d.Some? && d.value.Some? && d.value.value in users
    ensures r.Success? ==> r.value == Sanitize(users[DecodedId(cookie, authorization, env, lib).value.value])
  {
    var token := ExtractToken(cookie, authorization);
    if !Truthy(token) then Failure(Rethrow("Unauthorized request"))
    else match Verify(lib, token.value, env.accessTokenSecret)
      case Failure(message) => Failure(Rethrow(message))
      case Success(claims) =>
        if claims.id.Some? && claims.id.value in users then Success(Sanitize(users[claims.id.value]))
        else Failure(Rethrow("Invalid token"))
  }

  /** A verified token whose `_id` names no stored user is refused with "Invalid token". */
  lemma UnknownIdRefused(users: map<Id, User>, cookie: Option<string>, authorization: Option<string>, env: Env, lib: JwtLib)
    requires var d := DecodedId(cookie, authorization, env, lib); d.Some? && (d.value.None? || d.value.value !in users)
    ensures Authenticate(users, cookie, authorization, env, lib) == Failure(Rethrow("Invalid token"))
  {
  }

  /** A token the library rejects is refused with the library's message, or "Invalid access token" without one. */
  lemma RejectedTokenRefused(users: map<Id, User>, cookie: Option<string>, authorization: Option<string>, env: Env, lib: JwtLib)
    requires Truthy(ExtractToken(cookie, authorization))
    requires Verify(lib, ExtractToken(cookie, authorization).value, env.accessTokenSecret).Failure?
    ensures Authenticate(users, cookie, authorization, env, lib) ==
      Failure(Rethrow(Verify(lib, ExtractToken(cookie, authorization).value, env.accessTokenSecret).error))
  {
  }

  /**
   * The access token the model issues for a stored user authenticates as
   * that user, whether it comes as the cookie, whatever the header says.
   */
  lemma IssuedAccessTokenAuthenticates(users: map<Id, User>, id: Id, authorization: Option<string>, env: Env, lib: JwtLib)
    requires Sound(lib) && env.accessTokenSecret != ""
    requires id in users && users[id].id == id
    ensures GenerateAccessToken(users[id], env, lib).Success?
    ensures Authenticate(users, Some(GenerateAccessToken(users[id], env, lib).value), authorization, env, lib) == Success(Sanitize(users[id]))
  {
    AccessTokenRoundTrip(users[id], env, lib);
  }

  /**
   * A refresh token presented as the access cookie authenticates exactly
   * when the two secrets coincide: with separate secrets it is refused.
   */
  lemma RefreshTokenIsNoAccessToken(users: map<Id, User>, id: Id, env: Env, lib: JwtLib)
    requires Sound(lib) && SecretBound(lib)
    requires env.accessTokenSecret != "" && env.refreshTokenSecret != ""
    requires id in users && users[id].id == id
    ensures GenerateRefreshToken(users[id], env, lib).Success?
    ensures Authenticate(users, Some(GenerateRefreshToken(users[id], env, lib).value), None, env, lib).Success?
      <==> env.accessTokenSecret == env.refreshTokenSecret
  {
    var t := GenerateRefreshToken(users[id], env, lib).value;
    SignThenVerify(lib, RefreshClaims(users[id]), env.refreshTokenSecret, env.accessTokenSecret);
    assert Sign(lib, RefreshClaims(users[id]), env.refreshTokenSecret).value == t;
  }

  /** An incoming request: the cookie and header the guard reads, and the user it attaches. */
  class Request {
    const accessTokenCookie: Option<string>
    const authorization: Option<string>
    var user: Option<PublicUser>

    constructor (accessTokenCookie: Option<string>, authorization: Option<string>)
      ensures this.accessTokenCookie == accessTokenCookie && this.authorization == authorization && user == None
    {
      this.accessTokenCookie := accessTokenCookie;
      this.authorization := authorization;
      user := None;
    }
  }

  /** How the middleware ends: `next()` is called once, or an error is raised and `next` is not called. */
  datatype Verdict = Next | Reject(error: ApiError)

  /** The lookups `verifyJWT` performs: one `findById` once a token has verified, none before. */
  function Lookups(cookie: Option<string>, authorization: Option<string>, env: Env, lib: JwtLib): seq<DbOp> {
    var d := DecodedId(cookie, authorization, env, lib);
    if d.Some? then [FindByIdOp(d.value)] else []
  }

  /** `verifyJWT(req, res, next)`. */
  method VerifyJWT(req: Request, store: UserStore, env: Env, lib: JwtLib) returns (v: Verdict)
    modifies req`user, store`ops
    ensures var a := Authenticate(store.users, req.accessTokenCookie, req.authorization, env, lib);
      && (v.Next? <==> a.Success?)
      && (a.Success? ==> req.user == Some(a.value))
      && (a.Failure? ==> v == Reject(a.error) && req.user == old(req.user))
    ensures store.ops == old(store.ops) + Lookups(req.accessTokenCookie, req.authorization, env, lib)
  {
    var token := ExtractToken(req.accessTokenCookie, req.authorization);
    if !Truthy(token) {
      return Reject(Rethrow("Unauthorized request"));
    }
    var decoded := Verify(lib, token.value, env.accessTokenSecret);
    if decoded.Failure? {
      return Reject(Rethrow(decoded.error));
    }
    var user := store.FindPublicById(decoded.value.id);
    if user.None? {
      return Reject(Rethrow("Invalid token"));
    }
    req.user := user;
    v := Next;
  }
}
