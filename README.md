# Authentication service: request decisions, directory client and key registry

This project models the core of a small authentication gateway in Dafny. The gateway issues
and validates bearer tokens for client services. It checks users against an LDAP directory,
keeps per-service secrets and sessions in Redis, and delegates signing to a JWT token manager.

The model covers four parts of the Go code:

- **The HTTP handlers** (`api/api.go`, module `Api`):
  - *Group filter.* `validateGroups` is modelled as a loop method (`ValidateGroups`). It is specified by `FilterGroups`, and lemmas cover order, duplicates, membership and the test examples.
  - *Authenticate and Validate.* These are modelled as functions.
    - Inputs: the request, the store state, and what each collaborator call returns in that request.
    - Result: a `Reply` holding the HTTP status, the body, the store afterwards, and the trace of collaborator calls in order. The trace is what lets the contracts say "the directory is never contacted", "Close runs last and only after a successful login", and "the token is made with the service's own secret".
  - *HealthStatus.* A method that overwrites the fields of its report probe by probe.
- **The error handler** (`api/error.go`, module `ApiError`): a function from the error, the debug flag, the request method and the committed flag to a log record and what is written. It includes the panic of the `Message.(string)` type assertion.
- **The LDAP client** (`ldap/handler.go`, module `Ldap`): a class with the connection, bind flag, bound DN and mock flag as fields. `Connect`, `Close`, `Authenticate`, `GetGroupsOfUser` and `Health` are methods. Dial, StartTLS, key-pair loading, Bind and Search are outcome inputs. Go runtime panics (nil dereference, index out of range) are explicit results.
- **The `register` command** (`cmd/register.go`, module `Register`): a method over the mutable store client `Store.Client`. It finds a service's key, then creates it if absent or deletes it if present.

`Api` and `Register` both work over `Store`, an abstract Redis:
- Secrets are a `map<string, Entry<string>>`, keyed by service name.
- Sessions are a `map<SessionKey, Entry<Claims>>`, keyed by (username, service, token), with the session TTL.
- The Go key templates become these injective keys.
- A missing secret reads as `""`.
- A write is SET followed by EXPIRE, so it can fail before anything is stored, or after the value is stored without a TTL (`WrittenWithoutTtl`).

Where the code and the intended design differ, the model follows the code:
- A failed directory login answers HTTP 403 with body code 500. The handler test expects 500.
- `Validate` reads the `Authorization` and `AuthorizationRequestBy` headers. It does not read a JSON body, and it never looks the session up, so any token the codec accepts for the service re-creates its session (`Api.ValidateNeedsNoSession`).
- `Validate` compares the token's service with the requesting service. It compares the token's user with nothing (`Api.ValidateIgnoresUsername`).
- A failed or empty secret lookup gives 403, not 500, in both handlers.
- The handler builds claims with a `Name` field (the display name from the directory), which the token-claims type shown does not declare. The model follows the handler.

## Model

| member | source | states |
|---|---|---|
| Text.Upper | api/api.go:185 | ASCII upper-casing as `strings.ToUpper` does for group names. Same length, each lower-case letter replaced by its capital, and the result upper-case. |
| Text.UpperKeepsUpper | api/api.go:185 | Text already upper-case is left unchanged, so upper-casing is idempotent. |
| Text.UpperTeste | api/api_test.go:28-29 | `"teste"` upper-cases to `"TESTE"`. |
| Text.UpperTeste2 | api/api_test.go:34-35 | `"teste2"` upper-cases to `"TESTE2"`. |
| Api.FilterGroups | api/api.go:181-192 | The reference definition of the group filter: the requested groups, upper-cased, that are keys of the directory map. It is never longer than the request, and every element is upper-case and a key of the map. |
| Api.ValidateGroups | api/api.go:181-192 | The append loop of `validateGroups` returns exactly `FilterGroups(request, groups)`. |
| Api.FilterAppend | api/api.go:184-189 | Filtering a concatenation is the concatenation of the filtered parts, so request order is preserved. |
| Api.FilterMember | api/api.go:184-189 | A name is in the result if and only if it is a key of the directory map and some requested group upper-cases to it. |
| Api.FilterKeepsAll | api/api.go:184-189 | When every requested group is known, the result is the request upper-cased element for element, duplicates included. |
| Api.FilterSingle | api/api.go:184-189 | A one-group request keeps that group's upper-case form exactly when the directory map has it. |
| Api.FilterIdempotent | api/api.go:181-192 | Filtering the filtered groups again against the same map gives them back unchanged. |
| Api.FilterExamples | api/api_test.go:18-36 | The three test cases: `["teste"]` against `{TESTE}` and against `{TESTE, TESTE2}` give `["TESTE"]`; `["teste2"]` against `{TESTE}` gives `[]`. |
| Api.DirectoryMatch | ldap/handler.go:148-157 | Against the map the LDAP client builds, a group is kept if and only if a requested group and a non-empty directory group name upper-case to the same text. |
| Api.Authenticate | api/api.go:102-177 | See the Authenticate ladder below the table. |
| Api.AuthenticateCallsDirectory | api/api.go:124-136 | With every field present, the secret lookup is the first call. The directory is connected exactly when the service is registered. |
| Api.AuthenticateClosesAndSigns | api/api.go:139-165 | Close is made, as the last call, exactly when the directory login succeeded. A matched request has its token created from the issued claims with the service's own secret. |
| Api.AuthenticateStoreFrame | api/api.go:168-175 | Secrets never change. Any change to the store is the issued session, holding the issued claims, with every other session the same. |
| Api.IssuedGroupsAreGranted | api/api.go:152-161 | An issued token's groups are non-empty, upper-case, directory groups of the user, and each the upper-case form of a requested group. |
| Api.Validate | api/api.go:59-99 | See the Validate ladder below the table. |
| Api.ValidateIgnoresUsername | api/api.go:85-91 | Tokens that differ only in the user they name get the same response. |
| Api.ValidateNeedsNoSession | api/api.go:71-97 | With no session stored for the token, a token the codec accepts for the service still gets 200, and its session now exists. |
| Api.IssueThenRefresh | api/api.go:90-97 | Validating a freshly issued token, when the codec decodes it to its claims, gets 200. The session keeps its claims with the TTL set to the session TTL, and the store is as Authenticate left it. |
| Api.HealthStatus | api/api.go:33-56 | Always 200. Each of directory, store and codec is "Unavailable" with its probe's error exactly when its own probe fails, otherwise "Available" with an empty detail. |
| ApiError.Error | api/error.go:15-43 | See the error handler below the table. |
| ApiError.RawTextHiddenOutsideDebug | api/error.go:24-26 | Outside debug mode, two errors that differ only in their raw text are handled identically. |
| Ldap.DialOutcome | ldap/handler.go:28-58 | Dialing succeeds exactly when: plain TCP dial and, unless TLS is skipped, StartTLS succeed; or, with SSL, key-pair loading (when both files are configured) and the TLS dial succeed. A failure reports one of those steps' errors. |
| Ldap.GroupMap | ldap/handler.go:148-157 | The group map: every key maps to itself and is upper-case. The keys are exactly the upper-cased non-empty names of the entries, so empty names are skipped. |
| Ldap.Client.New | ldap/handler.go:19-21 | A non-mock client over the given configuration, not connected and not bound. |
| Ldap.Client.Mock | cmd/handler.go:64-75 | The client used when the directory is overridden: mock mode, no configuration. |
| Ldap.Client.Connect | ldap/handler.go:24-63 | See the LDAP client below the table. |
| Ldap.Client.Close | ldap/handler.go:66-72 | Afterwards there is no connection and the client is not bound, whatever the state before, so a second Close changes nothing. |
| Ldap.Client.Authenticate | ldap/handler.go:75-115 | See the LDAP client below the table. |
| Ldap.Client.AuthenticateConnecting | ldap/handler.go:81-115 | The corrected guard: without a connection it connects first and reports the dial error. It then behaves as `Authenticate` does on an open connection: bind error, `("", nil)` on a search error, the first entry on success. An open connection is kept, and the bind state changes only on a successful lookup. With a configuration the only panic left is an empty user search. Without a configuration Connect opens nothing, so the bind still panics. |
| Ldap.Client.GetGroupsOfUser | ldap/handler.go:118-158 | See the LDAP client below the table. |
| Ldap.Client.Health | ldap/handler.go:161-178 | See the LDAP client below the table. |
| Ldap.UnconnectedAuthenticatePanics | ldap/handler.go:81-89 | A new configured client asked to authenticate before connecting panics. |
| Ldap.UnconnectedAuthenticateConnecting | ldap/handler.go:81-89 | The same request against the corrected guard authenticates and returns the user's name. |
| Store.Lookup | redis/handler.go:80-96 | `FindString` on a service's API key: an error exactly when the call fails, otherwise the stored secret, and `""` for a missing key. |
| Store.Reported | redis/handler.go:50-78 | A write reports success exactly when both SET and EXPIRE succeeded, otherwise the failing step's error. |
| Store.Put | redis/handler.go:66-75 | See the store writes below the table. |
| Store.CreateKey | redis/handler.go:50-78 | Stores the claims under the session key with the session TTL. Secrets are untouched, and a failed SET changes nothing. |
| Store.Client.constructor | redis/handler.go:15-17 | A client over a configuration and a store state. |
| Store.Client.FindString | redis/handler.go:80-96 | Reads the secret as `Store.Lookup` does, changing nothing. |
| Store.Client.CreateString | redis/handler.go:99-121 | Writes the secret with the API TTL. Sessions are untouched. |
| Store.Client.DeleteKey | redis/handler.go:31-47 | On success removes only the service's key. On failure reports the error and changes nothing. |
| Register.Register | cmd/register.go:14-70 | See the register command below the table. |
| Register.RegisterTwice | cmd/register.go:33-67 | Registering a new service twice: the first run stores and reports a key, the second reports that same key and leaves it in place. |

### Api.Authenticate

- **Field checks.** 400 exactly when the body is unreadable or a field is empty. Fields are checked in the order username, password, service, groups. These exits have no collaborator calls and leave the store unchanged.
- **Secret lookup.** If the lookup fails or the secret is empty, the answer is 403, after that one call alone.
- **Directory failures.**
  - Connect error: 500.
  - Failed login: HTTP 403 with body code 500.
  - Group fetch error: 500.
  - Empty filtered list: 403.
- **Success.** 200 with the token exactly when the token was made and its session stored under (username, service, token) with the session TTL.
- **Failures after the token.** A token failure gives 500 and leaves the store unchanged. A token that is made but not stored gives 500 and no token.

### Api.Validate

- **Headers.** An empty `Authorization` header gives 400, then an empty `AuthorizationRequestBy` header gives 400, with no calls.
- **Secret.** A failed lookup or missing secret gives 403.
- **Token check.** The token is checked against the requesting service's secret, if and only if that secret was found.
- **Other failures.** A codec error, a service mismatch or a store error each give HTTP 403 with body code 404.
- **Success.** 200 with no body exactly when the token names the service and the re-write succeeded. The session under (token's user, service, token) then holds the decoded claims unchanged, with the session TTL.
- **Store.** Secrets never change.

### ApiError.Error

- A panic exactly when an HTTP error's message is not a string.
- Other errors get status 503, an HTTP error its own code. The message is "Service Unavailable" or the HTTP error's message, replaced by the raw text exactly in debug mode.
- Nothing is written once committed. HEAD gets the bare status, anything else the JSON body `{error: code, message}`.

### Ldap.Client

**Connect**
- A no-op returning nil when already connected or without a configuration.
- Otherwise it reports `DialOutcome`, and a connection exists afterwards exactly when the dial succeeded.
- The new connection is encrypted unless SSL is off and TLS is skipped.

**Authenticate**
- In mock mode it returns "mock".
- Without a connection it panics (the reversed guard).
- A Bind failure: the error.
- A search failure: `("", nil)`.
- An empty search result: an index panic.
- Otherwise the first entry's cn is returned, UserDN is set to its DN and the client is bound.
- Bind state changes only in that last case.

**GetGroupsOfUser**
- Changes nothing.
- In mock mode it returns `{MOCK: MOCK}`.
- Unbound: the "not Binded" error, whatever the directory holds.
- Otherwise the search error, or `GroupMap` of the entries found for the bound UserDN (not for the argument).

**Health**
- Mock: nil.
- No configuration: the "not loaded" error.
- Otherwise nil when already connected, else Connect's outcome.
- After a successful probe the client is left unconnected and unbound.

### Store.Put

- A failed SET changes nothing.
- Otherwise the key holds the value: with the TTL when EXPIRE succeeded, with none when it failed.
- No other key changes.

### Register.Register

- **Before the store.** A configuration load error or an empty service name exits 1 before any store access.
- **Mode.** The command removes exactly when the first argument is "remove".
- **Lookup.** A lookup error exits 1 with the store unchanged.
- **Add.**
  - An existing secret is reported and kept.
  - Otherwise a fresh UUID is stored with the API TTL and reported.
  - A failed CreateString exits 1, leaving the value stored with no TTL if only EXPIRE failed.
- **Remove.**
  - An existing secret: only its key is deleted, and the deleted value is reported.
  - No secret: "doesn't exist" with exit 0 and nothing changed.
- **Invariants.** No other service's key appears, disappears or changes, and sessions never change.

## Left out

- The token codec (`secure.TokenManager`) is not part of this model. `CreateToken`, `ValidateToken` and its `Health` are outcome inputs. Nothing is claimed about round trips, expiry or key isolation beyond which secret each handler passes.
- IssueThenRefresh assumes the codec decodes a token to the claims it was made from and that a token is never the empty string: both are properties of the codec, which is not modelled.
- JWT registered claims (expiry, issued-at) are not part of `Claims`. `CreateToken` receives the claims by pointer and may fill them in; the model stores the claims as the handler built them.
- Time is not modelled: an entry records the TTL last set by EXPIRE, and expiry and eviction by the store are not modelled.
- Key templates are modelled as injective constructors. The real `fmt.Sprintf` templates join names with a separator, so names containing it could collide.
- The Redis transport (dial, SET/EXPIRE/GET/DEL, JSON encoding) is reduced to fault inputs. `Store.Client.Health` and `Connect` of the Redis client are not modelled. HealthStatus takes the three probe outcomes as inputs.
- Api treats the directory as outcome inputs. It does not run `Ldap.Client`, so the side effect of `Ldap.Client.Health` (closing the shared connection) and the races on the one client shared by concurrent requests (bind flag, UserDN) are not modelled.
- Go panics inside handlers are recovered by the server's Recover middleware and reach `ApiError.Error` as a plain error, giving 503. The Api functions assume every collaborator call returns.
- `Ldap.Client.Authenticate` and `GetGroupsOfUser` do not model the text of the bind DN and search filters, which embed the user name and DN without escaping. Nor do they model the closing of the socket that a failed StartTLS leaves open.
- Ldap.Client.GetGroupsOfUser: that no search is made without a bind is stated only through the result not depending on the search outcome.
- Upper-casing is ASCII only. `strings.ToUpper` also maps non-ASCII letters.
- Server bootstrap, middleware, CORS, flags, graceful shutdown and logging output (cmd/handler.go, cmd/main.go) and the test doubles (mocks/mocks.go) are not part of this model. Reading the body, loading configuration files and drawing UUIDs are outcome inputs. Process exit is the `Exit` value `Register` returns. The colour tags of the printed lines are dropped.

## Findings

| source | as written | input that shows it | evidently intended | confidence | as-written member | corrected member |
|---|---|---|---|---|---|---|
| ldap/handler.go:81 | `if lc.Conn != nil { lc.Connect() }` before the bind. Connect then does nothing, and without a connection the bind dereferences nil. The same guard at line 128 is harmless because a bound client is always connected. | `New(cfg)`, then `Authenticate("user", "secret")` without `Connect` first | `if lc.Conn == nil`: connect before binding. Without a configuration `Connect` still opens nothing and the bind still panics; the fix leaves that as it is | high, not executed | Ldap.UnconnectedAuthenticatePanics | Ldap.Client.AuthenticateConnecting |
