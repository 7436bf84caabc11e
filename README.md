# Paste lifecycle of pastebin-lite, in Dafny

pastebin-lite is a small service for sharing text. A client posts some content
and gets back an 8-character identifier. Later fetches return the content until
the paste's time-to-live has passed or its view limit has been reached. After
that the paste is gone for good.

This project models the part of the service that carries the logic:

- the create request validator (`utils/validation.js`);
- the three route handlers in `routes/pastes.js`:
  - create writes a record under `paste:<id>`;
  - fetch checks presence, then expiry, then the view limit, and consumes one view;
  - render runs the same checks but never writes.

The Redis keyspace is the field `store: map<string, Paste>` of the class
`PasteRouter.Router`. Its methods `Create`, `Fetch` and `Render` follow the
handlers step by step. Each one is proved to do exactly what a pure function
in module `Pastes` says (`CreateOutcome`, `FetchOutcome`, `RenderOutcome`).
The properties are proved about those functions. Three things the handlers get
from elsewhere become parameters:

- the identifier (`nanoid(8)`);
- the current instant in milliseconds (`nowMs(req)`);
- the deployment's base URL.

Modules:

- `Optional`: the `Option` type used for JavaScript `null`.
- `JsValues`: the values a parsed JSON body can hold, JavaScript truthiness,
  `typeof … === "string"`, `Number.isInteger` and `String.prototype.trim`.
  Trim strips the ECMAScript White Space and Line Terminator code points.
- `Validation`: `validateCreate` and the rules it means. Each rule is proved in
  both directions, in the order the checks are made.
- `Pastes`: the record, the expiry and view-limit checks, `remaining_views`,
  and what each handler answers and leaves in the store.
- `PasteRouter`: the handlers as methods of a class over the store.
- `PasteProperties`: properties over several requests: sequences of fetches,
  create-then-fetch, and the one-second TTL and two-view scenarios.
- `AppConfig`, `AccessUrls`: the configuration object and the access URL of
  the create response (see Findings).

The model follows the code as written:

- Create overwrites blindly. There is no conditional insert, so an identifier
  collision replaces the earlier paste (`PasteProperties.CreateOverwrites`).
- Fetch loads the record, decides, then writes it back. It does no
  compare-and-swap. Requests are modelled as running one after another.
- `expires_at` is tested for JavaScript truthiness. A stored expiry of exactly
  0 counts as no expiry (`Pastes.ExpiryArmed`). A record created at an instant
  that is not before the epoch never has that value
  (`PasteProperties.ExpiryArmedWhenSet`).

## Model

| member | source | states |
|---|---|---|
| JsValues.TrimStart | utils/validation.js:4 | the result is a suffix of the input that does not begin with whitespace, and everything removed is whitespace |
| JsValues.TrimEnd | utils/validation.js:4 | the result is a prefix of the input that does not end with whitespace, and everything removed is whitespace |
| JsValues.TrimEmptyIff | utils/validation.js:4 | `content.trim() === ""` holds exactly when every character of the content is whitespace |
| Validation.ValidateCreate | utils/validation.js:1-21 | the answer is `null` or one of the three field messages |
| Validation.HasVisibleContentIff | utils/validation.js:4 | the falsy / typeof / trim test accepts exactly a string with at least one non-whitespace character |
| Validation.AcceptableCountIff | utils/validation.js:8-18 | the count check passes exactly when the field is absent or a whole number of at least 1 |
| Validation.ContentRule | utils/validation.js:4-6 | the content message is returned exactly when the content is missing, not a string, or blank, whatever the other fields hold |
| Validation.TtlRule | utils/validation.js:8-12 | the ttl message is returned exactly when the content passes and `ttl_seconds` is present but not a whole number of at least 1 |
| Validation.MaxViewsRule | utils/validation.js:14-18 | the max_views message is returned exactly when the first two checks pass and `max_views` is present but not a whole number of at least 1 |
| Validation.AcceptedIff | utils/validation.js:20 | the answer is `null` exactly when all three rules pass |
| Validation.AbsentCountNeverRejected | utils/validation.js:8-18 | an absent `ttl_seconds` or `max_views` is never the rejected field |
| Validation.AcceptedShape | utils/validation.js:4-18 | an accepted body has string content and counts that are absent or whole numbers of at least 1 |
| Pastes.Key | routes/pastes.js:44 | the store key `paste:${id}`, also built at lines 66 and 118 (see `KeyInjective`) |
| Pastes.Lookup | routes/pastes.js:69-70 | `client.get(key)` with the `!raw` test: the record, or null when the key is absent; also lines 119-121 (see `FetchAbsent`) |
| JsValues.Truthy | utils/validation.js:4 | JavaScript truthiness, the negation of `!content` (see `HasVisibleContentIff`) |
| JsValues.IsString | utils/validation.js:4 | `typeof content === "string"` (see `HasVisibleContentIff`) |
| JsValues.IsInteger | utils/validation.js:9 | `Number.isInteger(v)`: a number with no fractional part; also line 15 (see `AcceptableCountIff`) |
| AccessUrls.AccessUrlAsWritten | routes/pastes.js:51 | the URL exactly as written, `${Config.BASE_URL}/p/${id}` over the configuration object (see `AccessUrlIgnoresEnvironment`) |
| JsValues.Trim | utils/validation.js:4 | `content.trim()`: leading and then trailing whitespace removed (characterised by `TrimEmptyIff`) |
| Validation.RejectedCount | utils/validation.js:8-18 | the count check: present and either not `Number.isInteger` or below 1 (characterised by `AcceptableCountIff`) |
| Pastes.ExpiryArmed | routes/pastes.js:78 | `paste.expires_at` is truthy: set and not 0 (see `ExpiryArmedWhenSet`) |
| Pastes.IsExpired | routes/pastes.js:78 | the TTL check `paste.expires_at && now >= paste.expires_at`, shared with line 129 (see `FetchExpired`) |
| Pastes.IsExhausted | routes/pastes.js:84 | the view-limit check `max_views !== null && views >= max_views`, shared with line 134 (see `FetchExhausted`) |
| Pastes.Classify | routes/pastes.js:69-86 | the absent, expired, exhausted, grant cascade in the handlers' order (characterised by `GrantableIff`) |
| Pastes.Viewed | routes/pastes.js:89 | `paste.views += 1` (see `FetchGranted`, `ViewsCountServed`) |
| Pastes.AccessUrl | routes/pastes.js:51 | the corrected access URL, base URL then `/p/<id>` (see `AccessUrlRoutesToPaste`) |
| Pastes.KeyInjective | routes/pastes.js:44 | distinct identifiers have distinct `paste:<id>` keys |
| Pastes.NewPaste | routes/pastes.js:32-40 | the record has the content verbatim, `created_at` = now and `views` = 0. `expires_at` is set iff a TTL was given, and then it is `created_at` + 1000 × `ttl_seconds`. `max_views` is the given value or null. The record is well formed, so the expiry is after creation |
| Pastes.CreateOutcome | routes/pastes.js:14-58 | a rejected body answers 400 with the validator's message and leaves the store alone. An accepted body answers 201 with the id and the URL `AccessUrl(baseUrl, id)`, writes a fresh record under `paste:<id>` and changes no other key. The record invariant is preserved |
| Pastes.GrantableIff | routes/pastes.js:69-86 | a paste is visible exactly when it is stored, not expired and not at its view limit |
| Pastes.RemainingViews | routes/pastes.js:96-99 | `remaining_views` is null iff `max_views` is null, never negative, zero exactly when the views reached the limit, and otherwise limit − views |
| Pastes.ResponseExpiry | routes/pastes.js:100-102 | for a well-formed record created at or after the epoch, the response's `expires_at` is the stored expiry: null exactly when the paste has no TTL |
| Pastes.FetchOutcome | routes/pastes.js:64-109 | the content is served (200) exactly when the paste is visible, and it is the stored content. Failures answer 404 and carry one of the three messages. Only `paste:<id>` is touched, and its views never decrease. The record invariant (views ≤ max_views) is preserved |
| Pastes.RenderOutcome | routes/pastes.js:116-147 | render shows the page exactly when fetch would serve the content, with the same content, answers a bare 404 exactly when fetch answers 404, and returns no new store |
| PasteRouter.Router.Create | routes/pastes.js:14-58 | the handler's answer and new store are those of `CreateOutcome`, and the store invariant is kept |
| PasteRouter.Router.Fetch | routes/pastes.js:64-109 | the handler's answer and new store are those of `FetchOutcome`, and the store invariant is kept |
| PasteRouter.Router.Render | routes/pastes.js:116-147 | the handler reads only (no `modifies`), answers as `RenderOutcome`, and shows the page exactly when fetch would serve |
| PasteProperties.CreateOverwrites | routes/pastes.js:43-46 | create writes `paste:<id>` unconditionally, replacing any existing record, and adds no other key |
| PasteProperties.FetchAbsent | routes/pastes.js:69-72 | a missing key answers "Not found" and the store is unchanged |
| PasteProperties.FetchExpired | routes/pastes.js:78-81 | an expired paste answers "Expired" whatever its views and limit, and only its key is deleted |
| PasteProperties.FetchExhausted | routes/pastes.js:84-86 | an unexpired paste at its view limit answers "View limit exceeded" and the store is unchanged |
| PasteProperties.FetchGranted | routes/pastes.js:88-103 | a granted fetch writes back the same record with views + 1 and answers with its content, remaining views and expiry |
| PasteProperties.ExpiryArmedWhenSet | routes/pastes.js:35-37 | for a well-formed record created at or after the epoch, the truthiness test on `expires_at` is the same as "expiry is set" |
| PasteProperties.FetchMany | routes/pastes.js:64-109 | one response per fetch in a sequence of fetches of one paste |
| PasteProperties.AbsentStaysAbsent | routes/pastes.js:69-72 | once a paste is gone, no later fetch serves it and nothing is written |
| PasteProperties.FetchManyKeepsWellFormed | routes/pastes.js:84-91 | across any sequence of fetches every record stays well formed, so views never exceed max_views |
| PasteProperties.ViewBudget | routes/pastes.js:84-91 | a paste with a view limit is served at most (limit − current views) times, however many fetches arrive |
| PasteProperties.ViewsCountServed | routes/pastes.js:88-91 | while a paste is stored, its views have grown by exactly the number of fetches that served it |
| PasteProperties.FetchManyKeepsRecord | routes/pastes.js:88-91 | fetches change nothing in a record but its view count |
| PasteProperties.CreateThenFetch | routes/pastes.js:32-46 | a paste just created is served byte-for-byte by a fetch before its expiry, with remaining views null iff no limit was given |
| PasteProperties.UnlimitedPasteAlwaysServed | routes/pastes.js:78-103 | a paste with no TTL and no limit is served on every fetch, with null remaining views and null expiry |
| PasteProperties.OneSecondTtl | routes/pastes.js:35-37 | with `ttl_seconds` = 1 the paste is served at every instant before created + 1000 ms (created + 999 ms among them) and expired at created + 1000 ms and every later instant |
| PasteProperties.TwoViewPaste | routes/pastes.js:84-99 | with `max_views` = 2 the fetches answer remaining 1, then 0, then "View limit exceeded", and the views stop at 2 |
| AccessUrls.AccessUrlIgnoresEnvironment | routes/pastes.js:51 | as written, the access URL is "undefined/p/" + id in every environment |
| AccessUrls.AccessUrlAsWrittenMissesBase | routes/pastes.js:51 | with `BASE_URL` set in the environment, the URL as written is still not under that base URL |
| AccessUrls.CreateAsWrittenAnswersUndefinedUrl | routes/pastes.js:49-52 | the create handler given the base URL the code interpolates answers every accepted request with "undefined/p/" + id |
| AccessUrls.AccessUrlRoutesToPaste | routes/pastes.js:51 | the corrected URL begins with the base URL, and its path is `/p/<id>`, the render route of the new paste |

## Left out

- The Redis client, its connection, its error listener and `process.exit` (`redis.js`) are not modelled. This is network I/O. The store is a map that never fails, so the 500 "Internal server error" paths that store failures cause are not modelled. Two other 500 paths are described below: the date formatting under `Pastes.ResponseExpiry`, and a request body that is not an object.
- Server start-up (`app.js`), the health route (`routes/health.js`) and the Express plumbing (`res.status`, `.json`, `sendStatus`, the EJS template) are not modelled. Responses are datatypes carrying the status and the body fields.
- `JSON.stringify` / `JSON.parse` of records is not modelled. Records are stored as values, so a parsed record is a copy and `paste.views += 1` is a record update.
- `nanoid(8)` and `nowMs(req)` are not modelled. `utils/time.js` is not part of this model, so the identifier and the instant are parameters. Instants are unbounded integers.
- Pastes.ResponseExpiry: the response carries the expiry instant in milliseconds, not its ISO-8601 string, so the model does not capture that `new Date(expires_at).toISOString()` throws for an instant beyond 8.64e15 ms. The validator puts no upper bound on `ttl_seconds`, so a paste created with `ttl_seconds` = 9000000000000 has such an expiry. Every fetch of it writes the incremented record and then answers 500 "Internal server error", using up a view without serving the content. The model answers 200 with the content for that fetch.
- Concurrency is not modelled. The fetch handler loads, decides and then writes with no atomic step, so concurrent fetches can over-consume views. The model runs requests one after another, so `ViewBudget` and `FetchManyKeepsWellFormed` hold only for sequential requests.
- The code has no conditional insert and no compare-and-swap, so neither is modelled.
- Numbers are not IEEE doubles. JSON numbers are exact reals and stored numbers are unbounded integers, so rounding in `ttl_seconds * 1000` and in counts beyond 2^53 is not captured.
- Strings are sequences of Unicode scalar values, not UTF-16 code units. Every character `trim` removes is in the Basic Multilingual Plane, so the content rule does not depend on this.
- A request body that is not an object (`req.body` undefined) makes the destructuring throw. This is a 500 path and is not modelled: the body is always the three fields, each possibly `Undefined`.

## Findings

| source | as written | input that shows it | evidently intended | confidence | as-written member | corrected member |
|---|---|---|---|---|---|---|
| routes/pastes.js:51 | the URL is built from `Config.BASE_URL`, but the configuration object (configs/config.js:5-11) has no `BASE_URL`, so the template literal inserts the string "undefined" | any accepted create, e.g. id "abc12345" with `BASE_URL=https://paste.example` in the environment, answers url "undefined/p/abc12345" | the deployment's base URL followed by `/p/<id>` | high; not executed | AccessUrls.AccessUrlAsWrittenMissesBase | AccessUrls.AccessUrlRoutesToPaste |

The handlers in the model build the URL with `Pastes.AccessUrl`, from a base
URL passed in by the caller.
