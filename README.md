# go-soapforce client core in Dafny

This project models the session and header state machine of the `Client` type of
the go-soapforce package (a client for the Salesforce SOAP API). It covers three things.

- **Header composition.** `setHeaders` builds, from scratch, an ordered list of up to
  three optional SOAP headers: a debugging header, a query-options (batch size) header
  and a session header.
- **URL derivation.** The login URL `https://{LoginUrl}/services/Soap/u/{ApiVersion}`,
  the OAuth instance URL `{instance_url}/services/Soap/u/{ApiVersion}` and the token
  endpoint `https://{LoginUrl}/services/oauth2/token`.
- **State transitions.** Password login, session refresh, the two OAuth grants,
  logout, and the configuration setters.

Files:

- `wrappers.dfy` has `Option` (Go's nil), `Result` (a `(value, error)` return) and
  `Outcome` (a bare `error` return).
- `headers.dfy` has the `int32` conversion, the header datatype, the composer
  `Compose` and its properties.
- `urls.dfy` has the three URL templates and their properties.
- `session.dfy` is the client's observable state as a value `State`: every client
  field plus the transport's URL and header list. It has one transition function
  per operation and lemmas about what each transition promises.
- `client.dfy` has the classes `Soap` and `Client`. `Soap` is the transport, reduced
  to a URL field and a header sequence. `Client` has the source's fields, and each
  of its methods updates them in place. Every state-changing method is proved to
  perform a `Session` transition on `Model()`. Mostly it is the transition of the
  same name. `PushHeaders` performs `Session.SetHeaders`, and `LoginWithOAuth` and
  `Refresh` both perform `Session.OAuthExchange`. `GetSessionID` only reads.

Network calls are parameters. The SOAP login call is a function from the credentials
sent to the result. The OAuth `POST`, with reading and JSON-decoding its body, is a
function from the form post to either the decoded string map or the first error. The
SOAP logout call enters as its outcome.

The model follows the code exactly, including these behaviours:

- `Logout` returns early on a transport error, so nothing is reset then.
- `Logout` never clears `SessionId`. As a result, the next `SetBatchSize` or
  `SetDebuggingHeader` sends the old session header again
  (`Session.LogoutThenSetterResendsSession`). `SetAccessToken` replaces the id, so it does not.
- `RefreshSessionID` appends a session header instead of recomposing the list. After
  a login this leaves two session headers (`Session.RefreshAfterLoginDuplicatesSession`).
- `Login` pushes the server URL to the transport but leaves the client's `ServerUrl`
  field unchanged.
- `Login` overwrites the stored credentials before the call, even when the call fails.
- No OAuth response is rejected for a non-2xx status or for missing keys. A missing
  key reads as `""`.
- `RefreshSessionID` without earlier credentials passes the absent credentials to the
  transport. It raises no error of its own.

## Model

| member | source | states |
|---|---|---|
| `Headers.ToInt32` | client.go:296-299 | the `int32(size)` conversion gives the 32-bit value congruent to `size` modulo 2^32, and is the identity on values that already fit |
| `Headers.ComposePresence` | client.go:306-324 | debug header present iff `DebugCategories` is non-nil (even when empty); batch header iff `BatchSize > 0`; session header iff `SessionId != ""` |
| `Headers.ComposeOrdered` | client.go:306-324 | the composed list is ordered debug, batch, session, with each kind at most once, so it has at most three entries |
| `Headers.ComposeCarriesValues` | client.go:309-321 | each composed header carries the current value of its field |
| `Headers.ComposeSessionLast` | client.go:318-323 | with a non-empty session id, the last header is the session header for that id |
| `Headers.ComposeDetermines` | client.go:306-324 | equal header lists come from equal debug categories, equal session ids and equal positive batch sizes; only a non-positive batch size is forgotten |
| `Urls.SoapLoginUrlDeterminesVersion` | client.go:56-59 | for a fixed host, the derived login URL determines the API version |
| `Urls.SoapLoginUrlDeterminesHost` | client.go:56-59 | for a fixed version, the derived login URL determines the host |
| `Urls.TokenEndpointIsNotSoapUrl` | client.go:128 | the OAuth token endpoint of a host never equals the SOAP login URL of that host |
| `Wrappers.Result.ToOutcome` | client.go:83-85 | a result reduced to its error is nil exactly on success and is otherwise the same error |
| `Session.InitialState` | client.go:32-39 | a new client has no session id, no credentials, no debug categories, no headers, headers consistent with its fields, and an empty transport URL |
| `Session.DefaultDerivedUrl` | client.go:12-15 | with the defaults, the derived URL is `https://login.salesforce.com/services/Soap/u/44.0` |
| `Session.UrlSettersDeriveUrl` | client.go:41-59 | `SetApiVersion` and `SetLoginUrl` change their own field and recompute the transport URL from the new pair at once; nothing else changes |
| `Session.SettersSync` | client.go:46-49 | each of the three header setters (`SetAccessToken` here, `SetBatchSize` and `SetDebuggingHeader` at client.go:296-304) changes only its own field and the headers, and leaves the headers equal to the composition of the current fields |
| `Session.RunSettersSynced` | client.go:296-324 | after any non-empty run of header setters, the headers equal the composition of the final fields |
| `Session.RunSettersAgree` | client.go:296-304 | a run of header setters changes nothing except the three header fields and the header list |
| `Session.SettersOrderIndependent` | client.go:296-324 | two runs of header setters from one state that end with the same three field values end in the same state, whatever the order of calls |
| `Session.SettersCommute` | client.go:296-304 | setters of different fields commute |
| `Session.ConfigSettersKeepHeaders` | client.go:41-63 | version, host and server-URL setters, and the OAuth client setters at client.go:113-119, leave the header list as it was, and so keep it consistent with the fields |
| `Session.LoginFailure` | client.go:98-106 | a failed login overwrites the stored credentials and changes nothing else (session id, user info, transport URL, headers) |
| `Session.LoginSuccess` | client.go:107-110 | a successful login stores the credentials and sets the transport URL, user info and session id from the result. The headers become `Compose` of the old debug and batch fields with the new id, so the last header is the session header (none if the id is empty). Every other field is unchanged, the `ServerUrl` field included |
| `Session.LoginPreservesSync` | client.go:98-111 | whatever the transport answers, login keeps the headers consistent with the fields |
| `Session.RefreshSessionIDFailure` | client.go:81-85 | a failed refresh changes nothing |
| `Session.RefreshSessionIDSuccess` | client.go:86-95 | a successful refresh sets the session id, the `ServerUrl` field, the transport URL and the user info. It appends exactly one session header and keeps all earlier headers. Every other field is unchanged |
| `Session.RefreshAfterLoginDuplicatesSession` | client.go:91-94 | a refresh on top of consistent headers with a session leaves two trailing session headers, old id then new id, and the headers no longer match the fields |
| `Session.GrantRequests` | client.go:121-154 | both OAuth grants post to `TokenEndpoint(LoginUrl)` with the same client id and secret. They differ in `grant_type` (`password` or `refresh_token`) and carry the username and password, or the refresh token |
| `Session.OAuthFailure` | client.go:128-141 | an error from posting, reading or decoding leaves the state unchanged |
| `Session.OAuthSuccess` | client.go:143-145 | a decoded response sets the transport URL to the instance SOAP URL and the session id to the access token. The headers become `Compose` of the old debug and batch fields with the token. Every other field is unchanged, the `ServerUrl` field and the credentials included |
| `Session.OAuthMissingKeys` | client.go:137-144 | a response with neither key is accepted: the URL is the bare SOAP path plus version, the session id is empty, and no session header is sent |
| `Session.OAuthConverges` | client.go:169-170 | two clients on the same version that get the same response end with the same transport URL and session id, whatever their earlier state. With the same debug and batch settings, their headers agree too |
| `Session.OAuthIdempotent` | client.go:143-144 | repeating an exchange with the same response changes nothing further |
| `Session.OAuthExample` | client.go:143-144 | the response `{"access_token":"tok123","instance_url":"https://na1.example.com"}` on version 44.0 gives `https://na1.example.com/services/Soap/u/44.0` and session id `tok123` |
| `Session.LogoutFailure` | client.go:174-178 | a failed logout changes nothing |
| `Session.LogoutSuccess` | client.go:179-181 | a successful logout resets the transport URL to the derived login URL and clears all headers. The session id and every other field are kept |
| `Session.LogoutThenSetterResendsSession` | client.go:174-182 | after a successful logout that kept a non-empty session id, the next `SetBatchSize` or `SetDebuggingHeader` sends that old session header again, as the last header |
| `Soapforce.Soap.constructor` | client.go:33 | the transport starts with the given URL (empty for a new client) and no headers |
| `Soapforce.Soap.SetServerUrl` | client.go:58 | replaces the transport URL and keeps the headers |
| `Soapforce.Soap.SetHeader` | client.go:323 | replaces the whole header list and keeps the URL |
| `Soapforce.Soap.AddHeader` | client.go:94 | appends one header and keeps the URL |
| `Soapforce.Soap.ClearHeader` | client.go:180 | empties the header list and keeps the URL |
| `Soapforce.Client.constructor` | client.go:32-39 | `NewClient`: the model equals `Session.Initial()`, with a fresh transport |
| `Soapforce.Client.SetApiVersion` | client.go:41-44 | performs `Session.SetApiVersion` on the model |
| `Soapforce.Client.SetAccessToken` | client.go:46-49 | performs `Session.SetAccessToken` on the model |
| `Soapforce.Client.SetLoginUrl` | client.go:51-54 | performs `Session.SetLoginUrl` on the model |
| `Soapforce.Client.PushLoginUrl` | client.go:56-59 | `setLoginUrl`: sets the transport URL to the derived login URL, and nothing else |
| `Soapforce.Client.SetServerUrl` | client.go:61-63 | sets only the transport URL, not the `ServerUrl` field |
| `Soapforce.Client.GetSessionID` | client.go:77-79 | returns the stored session id and changes nothing |
| `Soapforce.Client.RefreshSessionID` | client.go:81-96 | calls the transport login with the stored credentials, possibly absent. It returns its error and performs `Session.RefreshSessionID` with its result |
| `Soapforce.Client.Login` | client.go:98-111 | calls the transport login with `(u, p)`, returns that result, and performs `Session.Login` with it |
| `Soapforce.Client.SetClientId` | client.go:113-115 | changes only the OAuth client id |
| `Soapforce.Client.SetClientSecret` | client.go:117-119 | changes only the OAuth client secret |
| `Soapforce.Client.ApplyTokenResponse` | client.go:143-145 | performs `Session.ApplyTokenResponse`: instance SOAP URL, then the access token through `SetAccessToken` |
| `Soapforce.Client.LoginWithOAuth` | client.go:121-146 | posts `Session.PasswordGrantRequest` built from the current host and client credentials. It returns the exchange's error and performs `Session.OAuthExchange` with the answer |
| `Soapforce.Client.Refresh` | client.go:148-172 | the same as `LoginWithOAuth`, with `Session.RefreshGrantRequest` |
| `Soapforce.Client.Logout` | client.go:174-182 | returns the transport's logout outcome and performs `Session.Logout` with it |
| `Soapforce.Client.SetBatchSize` | client.go:296-299 | stores `int32(size)` and recomposes the headers (`Session.SetBatchSize`) |
| `Soapforce.Client.SetDebuggingHeader` | client.go:301-304 | stores the categories, nil or not, and recomposes the headers |
| `Soapforce.Client.PushHeaders` | client.go:306-324 | `setHeaders`: builds the list by conditional appends and replaces the transport's headers with `Compose` of the current fields |

## Left out

- The pass-through domain operations (`DescribeSObject` through `SendEmail`, and
  `GetInfo`, client.go:184-487). Each only wraps its argument into a request and
  unwraps the result, so there is no session or header logic in them.
- HTTP form posting, reading the response body and JSON decoding (client.go:128-141,
  154-167). These are library and network calls. They enter as one function
  parameter that yields the decoded map or the first error. The HTTP status is not
  looked at, because the code never looks at it.
- The order in which `url.Values` encodes form fields. `url.Values` maps each key to a
  list of values. The form is modelled as a map from a key to one value. That is
  exact here, because each grant `Add`s every key once (client.go:123-127, 150-153).
- The transport's internals: `NewSoap`, how headers and the URL are serialized, and
  its `Login`/`Logout` calls. The transport is reduced to a URL field and a header
  sequence, and its call results are parameters.
- `SetDebug`, `SetLogger` and `SetGzip` (client.go:65-75). They forward logging and
  compression flags to the transport and keep no state in `Client`.
- A panic on a successful login whose response has a nil `Result`. The model assumes
  a successful transport login always carries a result.
- The exact shapes of `LogInfo` and `GetUserInfoResult`. Those generated types are not
  part of this model: `LogInfo` is a category/level pair, and the user-info snapshot is
  an opaque attribute map that the core only stores.
- `AddHeader` in `RefreshSessionID` receives `&sessionHeader`, the address of a variable
  that already holds the header's address. The model appends the session header itself. How the transport serializes
  the extra indirection is not part of this model.
- `Soapforce.Client.SetBatchSize`: the Go `int` parameter is taken to be 64 bits wide,
  as on the usual 64-bit platforms. On a 32-bit platform the conversion is the
  identity.
