# User accounts of a video-platform backend, in Dafny

This project models the account core of an Express/Mongoose backend:

- the `User` model: its record, its schema rules, its pre-save hook, its password check and its token builders;
- the `verifyJWT` guard;
- the `ApiError` value;
- the three account flows of the user controller: register, login and logout, plus the token helper that login uses.

The modules follow the program's structure.

- `Wrappers`: `Option` and `Result`.
- `JsStrings`: the parts of JavaScript strings the code relies on.
  - `trim` with ECMAScript's white-space set.
  - `toLowerCase`, ASCII letters only.
  - `replace` with a string pattern, which replaces only the first occurrence.
- `Bcrypt`: symbolic hashing. A digest is a free term over its input, so a hashed plaintext matches exactly itself, and a twice-hashed one matches nothing.
- `Jwt`: `sign` and `verify` are supplied as function values (`JwtLib`). Around them sit the library's empty-secret errors. The properties an honest implementation has (`Sound`, `SecretBound`) are used only as lemma premises.
- `ApiErrors`: the error record and its constructor defaults.
- `Cloudinary`: the media host, as a class.
  - Its answers are a fixed function `respond` of the local path.
  - Every path actually sent is logged.
  - A falsy path is never sent.
- `UserModel`:
  - The `User` record and the `.select("-password -refreshToken")` projection.
  - The `required` / `lowercase` / `unique` rules.
  - `isModified("password")` and the pre-save hook, on a `Document` class.
  - `isPasswordCorrect` and the two claim builders.
  - The collection as a `UserStore` class.
    - It holds a map from id to record and an id counter.
    - A ghost log records every database call.
    - Its invariant `Valid()` says that every record is stored under its own id, has its required fields, has lower-case keys and a hashed password, and that no two records share a username or an email.
- `AuthMiddleware`: `verifyJWT`, in two parts. `Authenticate` is a pure specification of the guard's decision. `VerifyJWT` is a method on a `Request` object that attaches `req.user`.
- `UserController`: a `Controller` class whose methods are the flows. Every rung of each flow's ladder of checks is a postcondition: the status, the message, the records written, the database calls made and the uploads sent.

Notable behaviour the model keeps:

- Mongoose applies the schema's `lowercase` setter to query values too. So registration's pre-check compares exactly as the unique index does, and the model proves that `User.create` never fails with a duplicate key inside registration.
- `findOne` is taken to return the matching record with the lowest id, that is, the earliest inserted one (an assumption, listed under "Left out").
- A login condition whose key is absent from the body matches nothing.
- `req.header("Authorization").replace("Bearer", "")` removes only the word. A `Bearer <token>` header yields `" <token>"`, with the space still in front. A compact JWS never starts with a space, so a library that refuses such tokens refuses every `Bearer <token>` header: without the cookie, the guard always answers 401 (`BearerSpaceHeaderRefused`). Only the cookie path authenticates a client that sends the standard `Bearer <token>` header. A header holding the bare token, or `Bearer<token>` with no space, is verified as is (`PlainHeaderToken`, `BearerHeaderToken`).
- Logout clears only the stored refresh token (under the mongoose 5.x reading of `$set: { refreshToken: undefined }`; see "Left out"). An access token issued before logout still authenticates afterwards (`LogoutKeepsAccessTokens`).
- `ApiError` drops its `error` argument, because the constructor copies the never-assigned `this.errors`.

## Model

| member | source | states |
|---|---|---|
| JsStrings.TrimStart | src/controllers/user.controller.js:44 | the result is a suffix of the input; everything dropped is white space; the result does not start with white space |
| JsStrings.TrimEnd | src/controllers/user.controller.js:44 | the result is a prefix of the input; everything dropped is white space; the result does not end with white space |
| JsStrings.Trim | src/controllers/user.controller.js:44 | `field.trim() === ""` holds exactly when every character is white space; a non-empty result starts and ends with a non-blank |
| JsStrings.Lower | src/controllers/user.controller.js:101 | `toLowerCase` keeps the length, maps each character through the lower-case map, and yields a string with no upper-case letter |
| JsStrings.LowerFixesLower | src/models/user.model.js:11 | a string with no upper-case letter is left unchanged by lowercasing |
| JsStrings.LowerIdempotent | src/models/user.model.js:11 | lowercasing twice is lowercasing once, so the controller's own `toLowerCase` and the schema setter agree |
| JsStrings.IndexFrom | src/middlewares/auth.middleware.js:12 | finds the first occurrence of the pattern at or after a position, or reports correctly that there is none |
| JsStrings.ReplaceFirst | src/middlewares/auth.middleware.js:12 | with no occurrence the string is unchanged; otherwise exactly the first occurrence is replaced |
| JsStrings.ReplaceFirstAtStart | src/middlewares/auth.middleware.js:12 | removing a pattern that starts the string leaves exactly the rest |
| Bcrypt.Hash | src/models/user.model.js:55 | a digest records its cost factor, adds one hashing layer and is never equal to its input |
| Bcrypt.HashThenCompare | src/models/user.model.js:55-61 | a hashed plaintext compares true against exactly that plaintext |
| Bcrypt.RehashNeverMatches | src/models/user.model.js:52-55 | a digest hashed again compares true against no plaintext |
| Jwt.Sign | src/models/user.model.js:67-78 | signing succeeds exactly when the secret is set, and fails with the library's message otherwise |
| Jwt.Verify | src/middlewares/auth.middleware.js:21-24 | verifying with an unset secret fails with the library's message |
| Jwt.SignThenVerify | src/middlewares/auth.middleware.js:21-24 | under an honest, secret-bound library, a token verifies to its claims exactly under the secret that signed it |
| ApiErrors.NewApiError | src/utils/ApiError.js:4-26 | the error has the given status and a null data slot, is unsuccessful and carries no error list; its message defaults to "Something went wrong"; its stack is the given one when non-empty, and is captured otherwise |
| ApiErrors.ErrorsArgumentIgnored | src/utils/ApiError.js:7-17 | the error list passed in has no effect on the constructed error |
| ApiErrors.Raise | src/utils/ApiError.js:4-26 | an error built with an explicit message has that status and message, a captured stack, and the fixed form |
| UserModel.SanitizeForgetsSecrets | src/controllers/user.controller.js:105-107 | two records project to the same public user exactly when they differ at most in password and refresh token |
| UserModel.FromFields | src/models/user.model.js:11-18 | the document `User.create` builds: username and email pass through the `lowercase` setters (lower case, same length), the password is still plaintext, and there is no refresh token; `FromFieldsLowercases` states the case-folding |
| UserModel.RequiredPresent | src/models/user.model.js:7-41 | `required: true` on username, email, fullname, avatar and password: an empty avatar or fullname fails it, and a document that passes has non-empty keys; `RegistrationComplete` shows that after the blank check only the avatar URL can fail it |
| UserModel.Unique | src/models/user.model.js:10-17 | `unique: true` on username and email: an empty collection is unique, and in a unique one each username and each email belongs to at most one id; `InsertKeepsUnique` shows that an unclashing insert keeps it |
| UserModel.FromFieldsLowercases | src/models/user.model.js:7-19 | a created document's username and email are lower case; usernames that agree up to case give the same stored username |
| UserModel.InsertKeepsUnique | src/models/user.model.js:7-19 | inserting a record that shares neither key with a stored one keeps both keys unique |
| UserModel.HashIfModified | src/models/user.model.js:50-57 | what the pre-save hook leaves: only the password may change; an unmodified document is saved as is; a modified password is replaced by a digest of it; `HookChangesOnlyPassword` adds the cost factor 10 |
| UserModel.HookChangesOnlyPassword | src/models/user.model.js:50-57 | the pre-save hook changes only the password; it leaves an unmodified password alone and hashes a modified one with cost 10 |
| UserModel.SavedPlaintextVerifies | src/models/user.model.js:50-62 | after a plaintext password is saved, `isPasswordCorrect` accepts exactly that plaintext |
| UserModel.ResaveKeepsPasswordChecks | src/models/user.model.js:52 | re-saving a loaded record with its password untouched keeps the password and every password check as they were |
| UserModel.RehashLocksOut | src/models/user.model.js:52-55 | without the `isModified` test, re-hashing a stored digest would make every password check fail |
| UserModel.AccessClaimsExact | src/models/user.model.js:67-73 | access claims carry `_id`, and are equal exactly when id, email, username and fullname are |
| UserModel.RefreshClaimsOnlyIdentify | src/models/user.model.js:84-87 | refresh claims carry `_id` and nothing else |
| UserModel.GenerateAccessToken | src/models/user.model.js:65-79 | the access token exists exactly when the access secret is set, and signs the access claims with it |
| UserModel.GenerateRefreshToken | src/models/user.model.js:82-93 | the refresh token exists exactly when the refresh secret is set, and signs the refresh claims with it |
| UserModel.AccessTokenRoundTrip | src/models/user.model.js:65-79 | under an honest library, an access token verifies with the access secret to the access claims |
| UserModel.PasswordModified | src/models/user.model.js:52 | `isModified("password")`: a new document is always modified; a loaded document whose password still equals the loaded one is not; `HookChangesOnlyPassword` and `ResaveKeepsPasswordChecks` build on it |
| UserModel.IsPasswordCorrect | src/models/user.model.js:60-62 | `bcrypt.compare` against the stored field: only a digest can match, never a stored plaintext, and at most one plaintext matches it; `SavedPlaintextVerifies` gives the round trip |
| UserModel.AccessClaims | src/models/user.model.js:67-73 | the access payload carries `_id`, `email`, `username` and `fullname` of the user; `AccessClaimsExact` shows it determines exactly those four |
| UserModel.RefreshClaims | src/models/user.model.js:84-87 | the refresh payload carries the user's `_id` and no profile claim; `RefreshClaimsOnlyIdentify` shows it identifies only the id |
| UserModel.Sanitize | src/controllers/user.controller.js:105-107 | `.select("-password -refreshToken")` keeps id, keys, name and image URLs; `SanitizeForgetsSecrets` shows it forgets exactly the password and the refresh token |
| UserModel.Matches | src/controllers/user.controller.js:56-58 | the `$or` filter: with neither condition nothing matches; a record whose username or email equals the lowercased query value matches |
| UserModel.Document.PreSave | src/models/user.model.js:50-57 | the document after the hook is the record with its password hashed exactly when it was modified |
| UserModel.FirstMatchFrom | src/controllers/user.controller.js:56-58 | returns the smallest id in range whose record matches the `$or` query, or reports that none does |
| UserModel.UserStore.FirstMatchComplete | src/controllers/user.controller.js:56-58 | under the store invariant, a match exists at some id exactly when the first-match search finds one |
| UserModel.UserStore.FindOne | src/controllers/user.controller.js:56-58 | result is null exactly when no stored record matches; otherwise it is the stored, first matching record; one query is logged |
| UserModel.UserStore.FindDocumentById | src/controllers/user.controller.js:13 | a fresh document loaded from the record exactly when the id is stored, and null otherwise |
| UserModel.UserStore.FindPublicById | src/controllers/user.controller.js:105-107 | the projected record for a stored id, and null for an unknown or undefined id |
| UserModel.UserStore.Create | src/controllers/user.controller.js:95-102 | a missing required field gives a validation error; a clash on either unique key gives a duplicate-key error; otherwise the hashed, lowercased record is inserted under the next id; the invariant is kept |
| UserModel.UserStore.Save | src/controllers/user.controller.js:22-26 | runs the hook and writes the document back under its id, keeping the invariant |
| UserModel.UserStore.ClearRefreshToken | src/controllers/user.controller.js:185-189 | the named record loses its refresh token and nothing else changes; an unknown id changes nothing |
| Cloudinary.MediaHost.UploadOnCloudinary | src/utils/cloudinary.js:12-41 | a falsy path gives null and sends nothing; any other path is sent once and gives the host's answer |
| AuthMiddleware.ExtractToken | src/middlewares/auth.middleware.js:10-12 | a truthy cookie is the token; otherwise there is a token exactly when there is a header |
| AuthMiddleware.BearerHeaderToken | src/middlewares/auth.middleware.js:12 | with no cookie, a header `Bearer<rest>` yields `<rest>` as is, leading space included |
| AuthMiddleware.BearerSpaceHeaderRefused | src/middlewares/auth.middleware.js:10-24 | with no usable cookie and a library that refuses tokens starting with a space, a `Bearer <token>` header is refused with a 401 whatever the token |
| AuthMiddleware.PlainHeaderToken | src/middlewares/auth.middleware.js:12 | with no cookie, a header not containing "Bearer" is taken whole |
| AuthMiddleware.Rethrow | src/middlewares/auth.middleware.js:44-46 | every failure becomes a 401 with the thrown message, or "Invalid access token" when that is empty |
| AuthMiddleware.Authenticate | src/middlewares/auth.middleware.js:10-46 | every refusal is a 401; no token gives "Unauthorized request"; a user is attached exactly when the token verifies to an id that is stored, and that user is the sanitised record |
| AuthMiddleware.UnknownIdRefused | src/middlewares/auth.middleware.js:30-37 | a verified token naming no stored user is refused with "Invalid token" |
| AuthMiddleware.RejectedTokenRefused | src/middlewares/auth.middleware.js:21-46 | a token the library rejects is refused with the library's message |
| AuthMiddleware.IssuedAccessTokenAuthenticates | src/middlewares/auth.middleware.js:10-43 | an access token issued for a stored user authenticates as that user |
| AuthMiddleware.RefreshTokenIsNoAccessToken | src/middlewares/auth.middleware.js:21-24 | a refresh token presented as the access cookie authenticates exactly when both secrets are equal |
| AuthMiddleware.VerifyJWT | src/middlewares/auth.middleware.js:7-47 | calls `next` exactly when `Authenticate` succeeds and then attaches its user; otherwise raises its error and leaves `req.user` alone; looks up the store only once a token has verified |
| UserController.AnyBlank | src/controllers/user.controller.js:43-44 | `[...].some((field) => field.trim() === "")`: an empty field is always refused; `AnyBlankMeans` characterises it exactly |
| UserController.AvatarPath | src/controllers/user.controller.js:65 | `req.files?.avatar[0]?.path`: no files give no path; a path is the first avatar file's |
| UserController.CoverImagePath | src/controllers/user.controller.js:71-78 | the cover path exists only when `req.files.coverImage` is a non-empty array, and is its first file's path |
| UserController.CoverUrl | src/controllers/user.controller.js:98 | `coverImage?.url || ""`: empty exactly when there is no cover URL or it is empty, and otherwise the uploaded URL; `RegisteredRecord` shows it is what the record stores |
| UserController.RegistrationFields | src/controllers/user.controller.js:95-102 | the fields handed to `User.create`: username lowercased with its length kept, the other form fields and the avatar URL as given, and a cover URL that is `""` when the cover upload gave nothing |
| UserController.AnyBlankMeans | src/controllers/user.controller.js:43-47 | a form is refused as blank exactly when one of its four fields is empty or white space only |
| UserController.NotBlankNotEmpty | src/controllers/user.controller.js:44 | a field that passes the check is not empty, and neither is its lower-case form |
| UserController.NotBlankFields | src/controllers/user.controller.js:43-47 | a form past the check has four non-empty fields |
| UserController.RegisteredRecord | src/controllers/user.controller.js:95-102 | the registered record has the form's fields with the keys lowercased, has no refresh token, and accepts exactly the form's password |
| UserController.RegistrationUnclashed | src/controllers/user.controller.js:56-102 | once the pre-check finds no match, the new record shares neither key with a stored one |
| UserController.RegistrationComplete | src/controllers/user.controller.js:43-102 | once the blank check passes, the new record fails `required` only for an empty avatar URL |
| UserController.LoginSessionAuthenticates | src/controllers/user.controller.js:150-176 | the access cookie set by a login authenticates, against the store as login leaves it, as the user who logged in |
| UserController.LogoutKeepsAccessTokens | src/controllers/user.controller.js:183-189 | clearing a refresh token changes no authentication decision |
| UserController.Controller.GenerateAccessAndRefreshTokens | src/controllers/user.controller.js:10-35 | for a stored user with both secrets set, returns both signed tokens and stores the refresh token on that user alone; otherwise a 500 with nothing written |
| UserController.Controller.CreateRegisteredUser | src/controllers/user.controller.js:94-117 | an empty avatar URL is rejected by validation; otherwise a 201 whose data is the sanitised new record, inserted under the next id |
| UserController.Controller.RegisterUser | src/controllers/user.controller.js:38-118 | each rung in order: a blank field gives 400; a taken key gives 409; a missing avatar gives 400; both uploads are attempted; a failed avatar upload gives 400; then the create and 201; each rung's database calls, writes and uploads are stated |
| UserController.Controller.LoginUser | src/controllers/user.controller.js:122-176 | each rung in order: no key gives 400; no match gives 404; a wrong password gives 401; a missing secret gives the token step's 500; success gives 200 with both cookies and both tokens, and stores the refresh token on the first matching record alone |
| UserController.Controller.LogoutUser | src/controllers/user.controller.js:183-200 | clears the refresh token of the authenticated user only, logs one update, and answers 200 clearing both cookies |

## Left out

- Crash paths are not modelled; in the source each ends the request with a 500 from the framework.
  - A registration field missing from the body: `.trim()` on undefined. The body's fields are strings here.
  - `req.files.avatar[0]` when `req.files` exists but has no avatar part: `?.` after `req.files` does not guard the index. An absent part is an empty list here. With no `req.files` at all, the optional chain gives `undefined` and the request gets the 400 "Avatar file is required", as in the model (`UserController.AvatarPath`).
  - A login body without a password: `bcrypt.compare` throws.
  - Non-string values in the registration form: `.trim()` is not a function of them.
- `src/controllers/user.controller.js:2` imports `../utils/APiError.js`, but the file is `ApiError.js`. The auth middleware never imports `ApiError` at all. The model assumes both resolve to the `ApiError` class.
- `generateAccessToken` and `generateRefreshToken` do not `return` the signed token, and they name undeclared expiry constants. As written, the token step always fails with its 500. The model takes the evidently intended version, in which both return the token.
- Token expiry and issue times, clocks, bcrypt salts and the cost of a round, and the `expiresIn` option.
- `Bcrypt.Compare`: real bcrypt looks only at the first 72 bytes of the plaintext, so two plaintexts that agree on those bytes both match one digest. The symbolic digest here matches exactly one plaintext.
- Deleting local files after upload, console logging, and the host's network behaviour beyond a fixed answer per path.
- Concurrency: two registrations racing past the pre-check, which the unique index would then reject.
- `timestamps`, `watchHistory`, the `index` options, `CastError` on a malformed id, and database connection errors.
- `JsStrings.Lower`: only ASCII letters are lowercased; Unicode case mapping is not modelled.
- `UserModel.UserStore.FindOne`: the query has no sort, and MongoDB returns the first match in natural order, which it does not promise to be insertion order. The model assumes id (insertion) order. This decides which record `LoginUser` checks the password against when the username names one record and the email another.
- `Jwt.Verify`: with an unset secret the model fails every token with "secret or public key must be provided". jsonwebtoken checks the token's shape first, so a malformed token fails with "jwt malformed" or "invalid token" instead. `Authenticate` forwards that message as the 401 text, so for such tokens only the status, not the message, is as in the source.
- A `$or` condition whose value is undefined is modelled as matching nothing. Mongoose's handling of such filters depends on its version and options.
- `UserModel.UserStore.ClearRefreshToken`: `$set: { refreshToken: undefined }` is modelled as clearing the field, which is what mongoose 5.x does (it writes `null`). Mongoose 6 and later strip undefined keys from updates, so the update is empty and the stored refresh token survives logout. Under those versions `LogoutUser` changes nothing in the store.
- `UserController.Controller.LoginUser` (and `UserModel.UserStore.FindOne`): `LoginBody` types `username` and `email` as absent-or-string. `express.json()` also passes numbers, booleans and objects. `findOne` casts numbers and booleans to strings, and it applies a query-operator object such as `{"$gt": ""}` as an operator, since `sanitizeFilter` is not enabled, so such a value matches a stored user whose password is then checked. None of these crash, and none is modelled.
- The `ApiResponse` class is not part of this model. Responses carry its status, data and message, but not its `success` flag.
- Cookie parsing, the multer upload middleware, the router, the server, the app and database bootstrap, and the video model are outside the modelled core.
