# Capstone casting API: request gate and resource handlers in Dafny

This project models the role-based access gate of a small Flask casting-agency API, together with the resource handlers it protects.

A protected route runs three checks in order and stops at the first failure:

1. It reads the bearer token from the `Authorization` header. This follows section 2.1 of RFC 6750, except that the scheme word is compared case-insensitively and the header is split on runs of whitespace.
2. It verifies the token. It reads the `kid` member of the token's JOSE header (section 4.1.4 of RFC 7515) and looks that key id up in the identity provider's JWK Set (section 5 of RFC 7517). It then maps the outcome of the library's decode call onto fixed errors. The decode call checks `iss`, `aud` and `exp`, from sections 4.1.1, 4.1.3 and 4.1.4 of RFC 7519.
3. It checks that the route's permission is in the token's `permissions` claim.

Each failure carries an `AuthError`, which is a message plus an HTTP status. The application renders an `AuthError` as `{"success": false, "error": <message>, "status_code": <status>}`, sent with that same status.

The resource side is modelled over plain values and two id-indexed tables of mutable row objects:

- pagination, 10 items per page;
- required-field checks for creation;
- in-place partial update, where only the non-null fields of the body are written;
- deletion;
- a 404 answer for a missing id, given before anything changes.

Modules:

- `Wrappers`: `Option` and `Result`.
- `Text`: Python's argument-less `str.split()` and `str.lower()`.
- `Auth`: `auth/auth.py`.
- `Pagination`: `paginate`.
- `Catalog`: the record, validation and update rules of the handlers, the `Actor`/`Movie` row classes and the `Database` tables.
- `Api`: error rendering, route permissions, and each route as the gate followed by its handler.

Three outside dependencies are inputs to the model:

- The JWK Set download is a `KeySetFetch`. It is either `FetchFailed` or the parsed document's `keys` member, if it has one.
- The JOSE library is a `Jose` value with two functions. `unverifiedHeader` returns the token's header, or `None` when the library cannot read it. `decode` returns a payload or one of three error kinds (`ExpiredSignature`, `ClaimsMismatch`, `Undecodable`).
- The configuration (`AUTH0_DOMAIN`, `ALGORITHMS`, `API_AUDIENCE`) is a `Config`.

An exception that no handler in the code catches is the `Crash` fault. The web framework answers it with status 500. The exceptions it covers are:

- the index error on a whitespace-only header;
- a key error on an unreadable JWK entry;
- a library error from `get_unverified_header`, which sits outside the `try`;
- a failed download;
- a key set without `keys`.

Three behaviours of the gate are easy to misread:

- **Duplicate key ids.** The key scan never breaks, so when several keys share the token's `kid`, the **last** of them is used (`SelectKey`, `FindKey`, `LastDuplicateWins`).
- **Empty permission.** The permission check has no special case for the empty permission. It passes only if `""` is literally granted. A payload without a `permissions` claim fails with 400 even for the empty permission (`EmptyPermissionNotSpecial`).
- **Key set download failure.** No `AuthError` is raised for it. It is an uncaught exception (`Crash`, rendered 500).

## Model

| member | source | states |
|---|---|---|
| `Text.Split` | auth/auth.py:37 | every piece of `auth.split()` is a non-empty run without whitespace; there are no pieces exactly when the string is all whitespace |
| `Text.SplitKeepsVisible` | auth/auth.py:37 | joining the pieces gives back every non-whitespace character of the header, in order; splitting drops only whitespace |
| `Text.SplitTwoWords` | auth/auth.py:37 | two words surrounded and separated by any whitespace runs split into exactly those two words |
| `Auth.GetTokenAuthHeader` | auth/auth.py:29-56 | a missing or empty header gives 'Authorization header is expected.'; a whitespace-only header crashes; every `AuthError` it raises is 401; a token is returned only when the header splits into two parts, the first being `bearer` in any case, and the token is the second part, non-empty and without whitespace |
| `Auth.BearerTokenExtracted` | auth/auth.py:37-56 | for any whitespace around and between the words and any letter case of `bearer`, the returned token is exactly `t` |
| `Auth.SchemeCheckedFirst` | auth/auth.py:37-40 | a first word other than `bearer` gets the scheme error whatever follows it, so the scheme is checked before the part count |
| `Auth.SchemeAloneHasNoToken` | auth/auth.py:44-46 | a header that is only the scheme word fails with 401 'Token not found.' |
| `Auth.ThirdPartRejected` | auth/auth.py:49-51 | with any whitespace before the scheme word, a third part fails with 401 'Authorization header must be Bearer<Token>.' |
| `Auth.BasicSchemeRejected` | auth/auth.py:37-40 | `Basic xyz` fails on its scheme |
| `Auth.BareBearerRejected` | auth/auth.py:44-46 | `Bearer` fails with 'Token not found.' |
| `Auth.ThreePartsRejected` | auth/auth.py:49-51 | `Bearer a b` fails with the Bearer<Token> error |
| `Auth.CheckPermissions` | auth/auth.py:69-78 | no `permissions` claim gives 400, whatever permission is asked; a claim without the permission gives 403; otherwise the result is `true`; the three cases are exclusive and exhaustive |
| `Auth.PermissionsMonotone` | auth/auth.py:74 | granting more permissions never turns an accepted check into a rejected one |
| `Auth.EmptyPermissionNotSpecial` | auth/auth.py:70-76 | the empty permission passes only when `""` is granted, and fails with 400 when the claim is absent |
| `Auth.LastMatch` | auth/auth.py:105-106 | returns the position of the last entry whose `kid` equals the token's, with no later match; returns none exactly when no entry matches |
| `Auth.SelectKey` | auth/auth.py:104-113 | the scan crashes exactly when some entry lacks `kid` or is a match lacking a key member; it finds nothing exactly when no entry matches; otherwise the chosen key is a copy of `kty, kid, use, n, e` of a matching entry after which no entry matches |
| `Auth.LastDuplicateWins` | auth/auth.py:105-113 | among several entries with the same `kid`, the last one is selected |
| `Auth.FindKey` | auth/auth.py:104-113 | the loop, which reassigns the key on every match and never breaks, computes `SelectKey` |
| `Auth.KeyFor` | auth/auth.py:93-116 | a failed download crashes; a header without `kid` gives 401 'Authorization malformed.'; the result is 403 'Unable to find the appropriate key.' exactly when the key set is readable, the `kid` is present and no entry matches; a found key is the one `SelectKey` chose; conversely, for a readable key set and a header with `kid`, a key the scan picks is returned and a scan that cannot read an entry crashes; an unreadable token header or a key set without `keys` crashes |
| `Auth.VerifyDecodeJwt` | auth/auth.py:91-142 | key-lookup failures are passed through without decoding; otherwise decode runs with the configured algorithms and audience and issuer `'https://' + domain + '/'`; expired gives 401 'Token expired.', claims error gives 401 'Incorrect claims…', any other failure gives 400, success returns the decoded payload unchanged |
| `Auth.UnknownKidRefused` | auth/auth.py:104-142 | a `kid` absent from a readable key set gives 403 whatever the decoder would say |
| `Auth.DecodeOnlyWithExpectedIssuer` | auth/auth.py:118-124 | the result depends on the decoder only through requests built with the configured algorithms and audience and the expected issuer |
| `Auth.Authenticate` | auth/auth.py:157-160 | header parsing, then verification, then the permission check; the first failure is the result; on success the payload is the verified one, unchanged, and it holds the permission |
| `Auth.ValidTokenAdmitted` | auth/auth.py:29-164 | a `bearer <t>` header, a readable key set whose last entry with the token's `kid` decodes the token to a payload, and that payload granting the permission: the gate returns exactly that payload |
| `Auth.RequiresAuth` | auth/auth.py:154-164 | the handler's result is returned, applied to the unchanged payload, exactly when the gate passes; otherwise the result is the gate's failure |
| `Auth.HandlerIrrelevantOnFailure` | auth/auth.py:157-162 | when the gate fails, the result does not depend on the handler, so the handler is never called |
| `Auth.NoHeaderIs401` | auth/auth.py:30-34 | without a header, the gate fails with 'Authorization header is expected.' (401) before any other check |
| `Auth.PermissionDecides` | auth/auth.py:158-160 | once a token is verified, the permission decides: 403 without it, the unchanged payload with it |
| `Pagination.PySlice` | app.py:20 | with both bounds resolved as Python does (a negative bound counts from the end, then each is clamped to the list), the slice is the run between them, or empty when they cross; for `0 <= i <= j` that is the contiguous run starting at `i`, clipped to the list |
| `Pagination.Paginate` | app.py:12-22 | returns the page number it used, which defaults to 1; for page >= 1 the items are the formatted entries from `(page-1)*10` onward, in order, at most 10 of them, and exactly `min(10, len - start)` when the start lies inside the list |
| `Pagination.PastTheEndIsEmpty` | app.py:15-20 | a page starting at or beyond the end of the list is empty |
| `Pagination.PageZeroIsEmpty` | app.py:15-20 | page 0, the slice `[-10:0]`, is empty |
| `Pagination.PageMinusOneCountsFromEnd` | app.py:15-20 | page -1 is not rejected: it is the slice `[-20:-10]`, the ten items ending ten before the last |
| `Pagination.EveryItemOnItsPage` | app.py:15-20 | item `k` appears on page `k/10 + 1` at position `k%10` |
| `Catalog.NewActor` | app.py:142-149 | rejects with 400 exactly when `name`, `age` or `gender` is absent or null; otherwise the record holds the body's values |
| `Catalog.NewMovie` | app.py:168-174 | rejects with 400 exactly when `title` or `release_date` is absent or null; otherwise the record holds the body's values |
| `Catalog.PatchActorFields` | app.py:204-211 | present fields are overwritten with the body's values; absent or null fields keep their old values; a body with no field leaves the record as it was |
| `Catalog.PatchMovieFields` | app.py:237-242 | the same for `title` and `release_date` |
| `Catalog.PatchActorIdempotent` | app.py:206-211 | applying the same body twice gives the same record as once |
| `Catalog.PatchMovieIdempotent` | app.py:239-242 | applying the same body twice gives the same record as once |
| `Catalog.PatchActorCompose` | app.py:206-211 | two successive patches equal one patch with the merged body, where the later body wins |
| `Catalog.PatchMovieCompose` | app.py:239-242 | two successive patches equal one patch with the merged body |
| `Catalog.CreateBodyIsFullActorPatch` | app.py:199-211 | a body accepted for creation overwrites every field when sent as a patch |
| `Catalog.CreateBodyIsFullMoviePatch` | app.py:233-242 | a body accepted for creation overwrites every field when sent as a patch |
| `Catalog.Actor.Update` | app.py:206-211 | the row becomes the patched record of its old value; its id is kept |
| `Catalog.Movie.Update` | app.py:239-242 | the row becomes the patched record of its old value; its id is kept |
| `Catalog.Database.AddActor` | app.py:138-161 | a missing field gives 400 and changes nothing; otherwise one new row with a fresh id holds the validated record, the reply carries that id and the new row count, and the movies are unchanged |
| `Catalog.Database.AddMovie` | app.py:164-186 | the same for movies |
| `Catalog.Database.DeleteActor` | app.py:90-111 | an unknown id gives 404 and changes nothing; otherwise exactly that row is removed and the reply carries the id and the remaining count |
| `Catalog.Database.DeleteMovie` | app.py:114-135 | the same for movies |
| `Catalog.Database.EditActor` | app.py:189-220 | an unknown id gives 404 and changes nothing; otherwise only that row changes, to its patched record, which is returned |
| `Catalog.Database.EditMovie` | app.py:223-251 | the same for movies |
| `Api.HandleAuthError` | app.py:301-307 | the HTTP status and the body's `status_code` both equal the error's status, `success` is false, and `error` is the message |
| `Api.Render` | app.py:255-307 | every error response has `success` false; an abort answers with its code and the registered message, for example 404 'resource not found' |
| `Api.Gate` | auth/auth.py:157-160 | succeeds exactly when the gate passes, with its payload; a raised `AuthError` reaches the `AuthError` handler unchanged; an uncaught fault becomes a 500 abort |
| `Api.ListPage` | app.py:49-62 | an empty page gives 404; otherwise the reply has the page's items, the total count and the page number |
| `Api.PageBeyondAvailableIs404` | app.py:53-54 | a page starting past the end is answered 404 'resource not found' |
| `Api.GetList` | app.py:46-87 | a gate failure is answered before the handler runs; otherwise the listing or its 404 |
| `Api.FarPageOfActorsIs404` | test_app.py:92-98 | `GET /actors?page=10000` is answered 404 |
| `Api.FarPageOfMoviesIs404` | test_app.py:114-120 | `GET /movies?page=10000` is answered 404 |
| `Api.MissingHeaderIs401` | test_app.py:288-292 | a request without a header is answered 401 on every route |
| `Api.MissingPermissionIs403` | test_app.py:260-264 | a verified token without the route's permission is answered 403 |
| `Api.PostActor` | app.py:138-149 | on a gate failure, no table changes; otherwise 400 exactly when a field is missing, and then no table changes; else the new row is added under a fresh id, which the reply carries with the new row count |
| `Api.PostMovie` | app.py:164-174 | the same for movies |
| `Api.DeleteActor` | app.py:90-108 | on a gate failure, or for an unknown id (404), nothing changes; otherwise exactly that row is removed and the reply carries the deleted id and the remaining count |
| `Api.DeleteMovie` | app.py:114-132 | the same for movies |
| `Api.PatchActor` | app.py:189-211 | on a gate failure, or for an unknown id (404), nothing changes; otherwise only that row is patched |
| `Api.PatchMovie` | app.py:223-242 | the same for movies |

## Left out

- The JWK Set download (`urlopen`, `json.loads`) is not modelled. It is network I/O, so its outcome is the input `KeySetFetch`.
- `get_unverified_header` and `jwt.decode` are not modelled. They are cryptographic library code, so they are the abstract functions of `Jose`. Signature checking and the algorithm allow-list live inside `decode` and are not modelled.
- Configuration loading (`load_dotenv`, `os.environ`) is not modelled; the settings are the `Config` input. An unset variable, which Python reads as `None`, is not modelled.
- The `print` logging is left out because it has no effect on results.
- The Flask machinery is left out: the request context, `@wraps`, routing, CORS, the `/health` route, `create_app`, `setup_db` and `app.run`. The `jsonify` serialisation of success bodies is left out too.
- SQLAlchemy sessions are reduced to the `Database` maps. Commit failures are not modelled, so the model has none of these answers: the 422 from insert and delete, the 500 from update, and the 500 around `jsonify` in the list routes. The ordered `query.all()` is the `selection` input of `GetList`.
- Schema migrations and seed data (`db_drop_and_create_all`) are left out; they are schema and data, not behaviour.
- Request bodies are JSON objects whose members are null, booleans, integer numbers or strings (`Json`). A fractional or exponent number such as `35.5` is not modelled. A non-object body, or `get_json()` returning `None`, is not modelled. Nested arrays and objects are not modelled either.
- The `permissions` claim is modelled as a list of strings. A claim of another JSON type is not modelled; Python's `in` would then be, for example, a substring test.
- JWK members and the `kid` header are modelled as strings.
- `Api.DeleteActor`, `Api.DeleteMovie`, `Api.PatchActor`, `Api.PatchMovie`: the `<actor_id>`/`<movie_id>` path segment is a string in the source; it is modelled as the integer it denotes. The reply's `deleted` member echoes the segment's text, where the model gives that integer. Segments that are not integers, which reach `query.get` outside any `try`, are not modelled.
- `Text.Lower`: lowers ASCII letters only, where Python's `str.lower()` lowers all of Unicode. No non-ASCII character lowers onto a letter of `bearer`, so the scheme comparison gives the same answer.
- All uncaught exceptions are the single fault `Crash`, whichever exception class the code raises; the application answers them all with 500.
- `Pagination.Paginate`: its own contract describes the items only for pages from 1 up. Pages below 1 follow from the general slice semantics of `PySlice`; page 0 is covered by `PageZeroIsEmpty` and page -1 by `PageMinusOneCountsFromEnd`.
