/**
 * jsonwebtoken, as the user model and the auth guard use it. Signing and
 * verification themselves are supplied from outside as the two functions of
 * a `JwtLib`; this module adds the library's own argument checks (an empty
 * or missing secret makes both calls throw) and names the properties an
 * honest implementation has, for lemmas to assume.
 */
module Jwt {
  import opened Wrappers

  /**
   * The payloads these tokens carry: `_id` and, for access tokens, the
   * profile fields. An absent claim is `None`. Issue and expiry times are
   * not modelled.
   */
  datatype Claims = Claims(id: Option<nat>, email: Option<string>, username: Option<string>, fullname: Option<string>)

  /** `sign(payload, secret)` gives the compact token; `verify(token, secret)` gives the payload or the error's message. */
  datatype JwtLib = JwtLib(sign: (Claims, string) -> string, verify: (string, string) -> Result<Claims, string>)

  /** `jwt.sign`: throws when the secret is empty or missing. */
  function Sign(lib: JwtLib, claims: Claims, secret: string): (r: Result<string, string>)
    ensures r.Success? <==> secret != ""
    ensures r.Failure? ==> r.error == "secretOrPrivateKey must have a value"
  {
    if secret == "" then Failure("secretOrPrivateKey must have a value")
    else Success(lib.sign(claims, secret))
  }

  /** `jwt.verify`: throws when the secret is empty or missing, otherwise defers to the implementation. */
  function Verify(lib: JwtLib, token: string, secret: string): (r: Result<Claims, string>)
    ensures secret == "" ==> r == Failure("secret or public key must be provided")
  {
    if secret == "" then Failure("secret or public key must be provided")
    else lib.verify(token, secret)
  }

  /** An honest implementation: a signed token is never empty and verifies, under its own secret, to its payload. */
  ghost predicate Sound(lib: JwtLib) {
    forall c: Claims, k: string :: k != "" ==> lib.sign(c, k) != "" && lib.verify(lib.sign(c, k), k) == Success(c)
  }

  /** Tokens are bound to their secret: under any other secret, verification fails. */
  ghost predicate SecretBound(lib: JwtLib) {
    forall c: Claims, k: string, k': string :: k != "" && k' != k ==> lib.verify(lib.sign(c, k), k').Failure?
  }

  /** Token round trip through the library's wrappers. */
  lemma SignThenVerify(lib: JwtLib, c: Claims, k: string, k': string)
    requires Sound(lib) && SecretBound(lib) && k != ""
    ensures Sign(lib, c, k).Success?
    ensures Verify(lib, Sign(lib, c, k).value, k') == Success(c) <==> k' == k
  {
    if k' != k && k' != "" {
      assert lib.verify(lib.sign(c, k), k').Failure?;
    }
  }
}
