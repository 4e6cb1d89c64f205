# Token authentication and post API of a WordPress theme

This project models the custom REST layer that a WordPress theme's
`functions.php` adds to the site. The layer has:

- two registration endpoints: `custom-api/v1/add-user` and
  `custom/v1/create-user`;
- two login endpoints:
  - `custom-api/v1/login` returns the stored opaque API token;
  - `custom/v1/sign-in` mints a signed JSON Web Token (HS256, seven-day
    lifetime);
- the `wp_login` hook, which stores a fresh 64-character `custom_token`
  for each user who logs in;
- the `verify_jwt_token` permission callback, which reads
  `Authorization: Bearer <token>`;
- the content endpoints: fetch posts, books, playlists and categories, and
  create, update and delete a post.

The model has one module per concern:

- `Base`: options and results; PHP truthiness, where `""` and `"0"` are
  false; the alphabet of `wp_generate_password(n, false)`.
- `Jwt`: the claim set and the token minting. The signing library is a
  pair of functions, `Codec`. What the model needs of that library is
  stated as two hypotheses, `Sound` (a round trip, and compact output) and
  `KeyBound` (another key fails). They appear only as preconditions of the
  lemmas that rely on them.
- `Bearer`: `sscanf($header, 'Bearer %s')`. It matches the literal
  `Bearer`, skips any whitespace, and takes the longest run of
  non-whitespace characters.
- `Records` and `Http`: users, posts, request parameters and response
  bodies. A `Request` is a class because the verifier writes its
  `user_id` parameter.
- `Verifier`: `verify_jwt_token` as a specification function
  (`VerifyToken`), plus an imperative method that is proved against it.
- `Store`: the site's users, user meta, posts and category terms as a
  class. The handlers that change it are methods, and so is the category
  listing, which loops over terms and posts. The other handlers that only
  read it are functions.
- `Routes`: the route table, the guard WordPress derives from each route's
  arguments, and the server step `Serve`. The guard runs first, and the
  handler runs only if the guard admits the request.
- `Scenarios`: request sequences on a fresh site, proved from the
  contracts above.

Where the code behaves differently from what a client of the API would
expect, the model follows the code:

- A header equal to `""` or `"0"` is reported as `jwt_missing`, not as
  `jwt_invalid`.
- The token `0` (as in `Bearer 0`) is `jwt_invalid`.
- `Bearerabc` presents the token `abc`.
- `user_id` is attached to the request before the expiry check, so, for a
  decoder that checks integrity only, an expired token still sets it (see
  the `exp` line under "## Left out").
- The `delete-post` route names its guard under the key `permission` and
  misspells it, so WordPress runs that route without any guard.
- Sign-in does not fire `wp_login`, so it does not write `custom_token`.
- `create-user` answers 200 even when encoding fails. The `token` field
  then holds the `jwt_encode_error` error (`Minted.EncodeError`).
- `add-user` checks no field itself. Only the insertion's own refusals
  apply.
- With `JWT_AUTH_SECRET_KEY` undefined or set to `"0"`, every token is
  `jwt_invalid`: the verifier builds `new Key($secret_key, 'HS256')`
  inside its `try`, and firebase/php-jwt's `Key` constructor refuses empty
  key material (PHP's `empty`). Minting passes the key as a plain string,
  so under `"0"` the site still issues tokens that it then refuses.

## Model

| member | source | states |
|---|---|---|
| Jwt.SecretKey | functions.php:1075 | an undefined secret constant gives the empty key; a defined one gives its value |
| Jwt.MintClaims | functions.php:1078-1086 | the payload names the user, is issued at the request time and expires exactly seven days later |
| Jwt.DecodeWithSecret | functions.php:1128 | a secret that is undefined or `"0"` gives `EmptyKeyMaterial` before anything is decoded, as the `Key` constructor throws for empty key material |
| Jwt.GenerateJwtToken | functions.php:1073-1103 | minting succeeds exactly when the library encodes the payload under the configured key; otherwise it is the 500 encode error |
| Jwt.MintedTokenDecodes | functions.php:1073-1103 | when the codec is sound and a secret other than `""` and `"0"` is set, the minted token is compact and decodes under the same key to the user's id, e-mail, first name, issue time and expiry |
| Bearer.SkipSpace | functions.php:1115 | the whitespace `%s` skips is a prefix of the input; what remains is empty or starts with a non-space |
| Bearer.TakeWord | functions.php:1115 | `%s` takes a prefix without whitespace, ending at the end of the input or before a whitespace character |
| Bearer.ExtractBearer | functions.php:1115 | a token is found only when the header starts with `Bearer`; the token is non-empty and contains no whitespace |
| Bearer.TakeWordOfWord | functions.php:1115 | `%s` applied to a word followed by whitespace returns exactly that word |
| Bearer.SkipSpaceOfSpaces | functions.php:1115 | skipping leading whitespace removes exactly that whitespace |
| Bearer.ExtractBearerOf | functions.php:1115 | `Bearer`, any whitespace, a token, then nothing or whitespace and anything: that token is extracted |
| Bearer.BearerRoundTrip | functions.php:1115 | for a non-empty token without whitespace, `Bearer <token>` yields the token back |
| Bearer.ExtractBearerShape | functions.php:1115 | every extracted token comes from a header of the form `Bearer`, whitespace, token, then nothing or whitespace and a tail (the converse of ExtractBearerOf) |
| Bearer.NoBearerToken | functions.php:1115-1119 | a header that does not start with the literal `Bearer` presents no token |
| Verifier.VerifyToken | functions.php:1106-1144 | `jwt_missing` exactly for a missing or falsy header; a bad bearer shape, a secret the `Key` constructor refuses, or a decoder failure is `jwt_invalid` and attaches nothing; `user_id` is attached exactly when decoding succeeds; granted exactly when decoded and not expired; otherwise `jwt_expired` |
| Verifier.DeniedResponse | functions.php:1109-1140 | every refusal is a 401 WP_Error carrying the verdict's code |
| Verifier.VerifyJwtToken | functions.php:1106-1144 | the step-by-step callback returns VerifyToken's verdict and writes `user_id` exactly as VerifyToken's effect says |
| Verifier.RejectedBeforeDecoding | functions.php:1108-1119 | refusals before decoding depend on the header alone, not on the codec, secret or clock |
| Verifier.CompactTokenHasNoSpace | functions.php:1115 | a compact token contains no whitespace and is not falsy, so the bearer scan returns it whole |
| Verifier.DecodableTokenJudged | functions.php:1125-1143 | a compact token that decodes to some claims under the configured secret attaches that `user_id`, and is granted unless those claims are expired |
| Verifier.UndecodableTokenRejected | functions.php:1127-1135 | a compact token the decoder refuses is `jwt_invalid`, carries the decoder's error, and attaches nothing |
| Verifier.IssuedTokenAccepted | functions.php:1073-1144 | a token minted for user `id` with a secret set (other than `"0"`), sent as `Bearer <token>`, attaches `id` and is granted up to seven days after issue and `jwt_expired` after that |
| Verifier.ForeignTokenRejected | functions.php:1125-1136 | a token signed under a different secret is `jwt_invalid` and attaches nothing |
| Verifier.FalsySecretRefusesAll | functions.php:1126-1135 | with the secret undefined or `"0"`, no header is granted and nothing is attached; every presented token is `jwt_invalid` with the empty-key error |
| Verifier.ZeroSecretRefusesOwnToken | functions.php:1073-1135 | under the secret `"0"`, minting succeeds, yet the minted token sent as `Bearer <token>` is `jwt_invalid` with nothing attached |
| Verifier.OtherKeyFails | functions.php:1128 | the key-binding hypothesis applied to one claim set and two different keys: the token fails to decode |
| Verifier.BearerWithoutSpace | functions.php:1115-1119 | `Bearerabc` presents the token `abc`: no whitespace is needed after the literal |
| Verifier.LowerCaseBearer | functions.php:1115-1119 | `bearer abc` presents nothing: the literal is case-sensitive |
| Verifier.ZeroToken | functions.php:1115-1119 | `Bearer 0` presents nothing: the token `0` is falsy |
| Store.FindLogin | functions.php:1218 | returns the first user holding the login, and none exactly when no user holds it |
| Store.NewUser | functions.php:1222-1226 | the new row keeps login, e-mail and password; the nicename is a prefix of the login of at most 50 characters |
| Store.Authenticate | functions.php:1032-1036 | success means that user's login and password match; empty credentials, an unknown login and a wrong password are the three failure kinds, each exactly characterised |
| Store.AuthenticateExact | functions.php:1032-1036 | with unique logins, a user's own login authenticates exactly with that user's password |
| Store.Store.MetaGet | functions.php:1039 | a missing meta key reads as the empty string |
| Store.Store.InsertUser | functions.php:1222-1230 | on the login as given (without WordPress's `sanitize_user` step), refuses an empty login, a login longer than 60 characters, a taken login and a taken non-empty e-mail, each exactly when it applies; otherwise appends the new user with the next ID; it keeps logins and e-mails unique |
| Store.Store.RestCreateUser | functions.php:1207-1253 | 400 for a missing field; 400 for a taken login or e-mail; 500 only when the insertion refuses; 200 exactly when all checks pass, with the new user appended and a token minted for the new ID; a clean request whose login (taken as given, unsanitised) is over 60 characters is the 500 `Failed to create user.`; a refusal leaves the users unchanged |
| Store.Store.AddUser | functions.php:983-1008 | 400 `registration_error` exactly when the insertion (on the unsanitised login) refuses; otherwise the new subscriber is appended, its `custom_api_token` is stored, and the same token is returned with its ID |
| Store.Store.OnLogin | functions.php:947-955 | overwrites only this user's `custom_token`, so the last login's value remains |
| Store.Store.SignIn | functions.php:1159-1192 | 401 with one fixed body exactly when authentication fails; otherwise 200 for the user whose login and password match, with a token minted for that user at that time |
| Store.Store.LegacyLogin | functions.php:1020-1051 | 400 `login_error` for empty fields; 401 `login_error` with the authentication message; 401 `token_error` when no token is stored; otherwise 200 with the stored token unchanged |
| Store.Store.PublishedOfType | functions.php:1269-1286 | exactly the published posts of the requested type, unchanged (the same query serves fetch-books at 1302-1319 and fetch-playlist at 1335-1352) |
| Store.Store.SetObjectTerms | functions.php:1448-1454 | the post's category becomes the name, and an unknown non-empty name becomes a new term |
| Store.Store.CreatePost | functions.php:1430-1464 | with neither title nor content, 500 `error_creating_post` and nothing stored; otherwise a published post authored by the request's `user_id` under a fresh ID, filed under the category or `shopping` |
| Store.Store.UpdatePost | functions.php:1480-1505 | always 200 with the given post ID; only that post's title, content and category change (title and content only when one of them is non-empty); the set of post IDs is unchanged; a non-empty category not yet a term becomes a new term unless the ID is falsy |
| Store.Store.DeletePost | functions.php:1521-1540 | 400 without a post ID; 404 for an unknown one; otherwise that post alone is removed |
| Store.Store.CategoriesWithPosts | functions.php:1368-1413 | one entry per category in term order, each listing CategoryPosts for that category |
| Store.CategoryPostsExact | functions.php:1379-1395 | a category's listing holds exactly its published posts, each formatted from its row, newest (highest ID) first |
| Store.LegacyLoginReturnsStoredToken | functions.php:1020-1051 | a user's own credentials get back the stored API token unchanged |
| Store.SignInFindsUser | functions.php:1159-1192 | a user's own credentials sign that user in, with a token minted for that user |
| Routes.GuardOf | functions.php:1513-1517 | a route is guarded only when its arguments name `verify_jwt_token` under `permission_callback`; a route without that key, such as delete-post with its `permission` key, is open |
| Routes.GuardTable | functions.php:975-1519 | exactly fetch-books, fetch-playlist, fetch-categories, create-post and update-post are guarded; delete-post is open |
| Routes.RunAccountHandler | functions.php:973-1253 | add-user, create-user, sign-in and the legacy login answer and change exactly what their handlers' contracts say; the logins change nothing; registration writes no post or term, create-user no meta |
| Routes.RunListingHandler | functions.php:1257-1413 | fetch-posts, fetch-books and fetch-playlist answer 200 with the published posts of their type; fetch-categories lists every category with its posts |
| Routes.RunPostHandler | functions.php:1418-1540 | create-post, update-post and delete-post answer and change exactly what their handlers' contracts say, never touching users or meta; update and delete keep the next post ID, delete keeps the terms |
| Routes.Serve | functions.php:1418-1519 | a guarded route runs the verifier first; a refusal is its 401 and leaves the store unchanged; an open route never sets `user_id`; every admitted request is answered by its handler (registration outcomes, login answers, listings, and create-post storing a post under the next ID authored by the user the token names, update-post, delete-post); each handler leaves alone what it never writes, whether or not it runs; delete-post (open) is decided by its handler whatever the header says |
| Scenarios.FetchBooks | functions.php:1290-1319 | fetch-books with a given header answers the verifier's refusal, or 200 with the published books once admitted, and changes nothing |
| Scenarios.RegisterAlice | functions.php:1207-1253 | registering on a fresh site answers 200 with user ID 1 and a token that is granted now and expired a week and a second later |
| Scenarios.RegisterThenFetchBooks | functions.php:1207-1319 | after registering, the returned token opens fetch-books; without a header the answer is `jwt_missing`; after seven days it is `jwt_expired` |
| Scenarios.TwoLogins | functions.php:947-1192 | after two logins the stored `custom_token` is the second one, and both sign-in tokens verify |
| Scenarios.AnonymousCreate | functions.php:1418-1428 | create-post without a header is `jwt_missing` and stores nothing |
| Scenarios.AnonymousDelete | functions.php:1509-1540 | delete-post without a header removes an existing post, and answers 404 for an unknown non-zero ID; users, meta and terms stay as they were |
| Scenarios.RegisterWithoutUsername | functions.php:1196-1216 | create-user without a username answers the 400 for a missing field and writes nothing |
| Scenarios.DeleteWithoutHeader | functions.php:1418-1540 | an anonymous create-post is refused; an anonymous delete-post deletes the post |

## Left out

- The HS256 signature and the JWT library: encoding and decoding are
  parameters. Their behaviour is assumed through `Sound` and `KeyBound`,
  not proved.
- The library's own time checks are not modelled: `nbf`, `iat` in the
  future, leeway, and `exp`. firebase/php-jwt's `JWT::decode` (called at
  functions.php:1128) throws `ExpiredException` once the current time
  reaches `exp`, and the `catch` at functions.php:1133 turns that into
  `jwt_invalid` with no `user_id` attached. With the real library the
  `jwt_expired` branch at functions.php:1138-1140 is therefore unreachable.
  The model's decoder is a parameter that checks integrity only, so the
  only expiry check modelled is the callback's own `exp < time()` test.
- Store.Store.InsertUser: checks and stores the login exactly as the
  request gives it. `wp_insert_user` and `wp_create_user` first reduce it
  to `trim(sanitize_user($login, true))`: accents are removed and every
  character outside `a-z`, `A-Z`, `0-9`, space, `_`, `.`, `-` and `@` is
  dropped. The model therefore differs for such logins:
  - a login such as `日本語` or `!!!` sanitises to the empty string, so
    WordPress refuses it with `empty_user_login`; through
    Store.Store.RestCreateUser that is the 500 `Failed to create user.`,
    through Store.Store.AddUser the 400 `registration_error`. The model
    accepts it and answers 200;
  - `José` is stored as `Jose`, and the emptiness, length and uniqueness
    checks apply to the sanitised login;
  - the InsertUser, RestCreateUser and AddUser rows hold only for logins
    that `sanitize_user` leaves unchanged.
- Store.NewUser: the nicename is the login cut to 50 characters. It leaves
  out `sanitize_title` of that prefix (lower case, punctuation dropped,
  spaces turned into `-`), the `-2`, `-3`, … suffix WordPress adds to a
  taken nicename, and the `sanitize_user(…, true)` and trimming of the
  login, so `user_nicename` may differ from WordPress's.
- Jwt.MintClaims: reads the clock once per request, so `exp - iat` is
  exactly seven days. The source calls `time()` twice
  (functions.php:1084-1085), so `exp` may be one second later than that.
- Store.FindLogin: compares logins exactly. WordPress's lookups
  (`username_exists`, `email_exists` and the login lookup inside
  `wp_authenticate`) use the users table's case-insensitive collation, so
  with `alice` registered, `Alice` is refused as taken and `ALICE` signs in
  as alice. The model's `LoginTaken`, `EmailTaken`, `Store.Authenticate`,
  `Store.Store.InsertUser` and `Store.Store.RestCreateUser` use exact
  comparison in place of that case folding.
- Time and `wp_generate_password` are parameters. The model only requires
  the generated length and alphabet.
- Store.Authenticate: compares stored passwords by equality and finds users
  by login only. It leaves out hashing, login by e-mail address, and the
  `authenticate` filters.
- `sanitize_text_field`, `sanitize_email` and `wp_kses_post` are taken as
  the identity.
- `setcookie`, `wp_set_current_user` and `wp_set_auth_cookie` (cookies and
  the current-user global) are not modelled. They do not affect the
  responses modelled here.
- The `AdduserApi` class and `custom_api_shortcode` are outside this layer
  and are not part of this model.
- Store.Store.DeletePost: removes the post outright. It leaves out the
  trash step, and the 500 path for a deletion that WordPress refuses,
  which a stored post does not reach here.
- Store.Store.CreatePost: it leaves out the other ways `wp_insert_post`
  can fail. The only refusal modelled is an empty title together with
  empty content.
- Store.Store.RestCreateUser: leaves out the "Failed to retrieve user
  data." path, which cannot happen right after a successful insert.
- Store.Store.CategoriesWithPosts: leaves out the order of
  `get_categories`, the slug and the description. Terms appear in
  creation order. Posts are ordered by ID, newest first, rather than by
  date.
- Store.Store.PublishedOfType: returns the post rows as a map rather than
  an ordered list of `WP_Post` objects.
- Store.Store.SetObjectTerms: leaves out the whitespace trimming and the
  name-to-slug matching of category names.
- Bearer.ExtractBearer: takes `%s` to stop at the six whitespace
  characters of C `isspace`. It leaves out NUL bytes in the header.
