# Broker dispatch and authentication handler, modelled in Dafny

A model of the request broker of a small Go microservice system and of the
authentication service it forwards logins to.

The broker's `HandleSubmission` decodes an inbound envelope `{action, auth,
logger}`. It routes on `action` to at most one downstream call:
`authenticate`, `WriteLog`, or none with "no such action available". It
then turns a call's answer into a uniform reply `{error, message, data}`
with an HTTP status. The authentication service's
`Authenticate` decodes `{email, password}`, looks the user up, checks the
password and reports the login to the logger service through `logRequest`.
Each step that fails ends the request.

Every handler is a pure function here:

- HTTP, JSON and the database are abstract inputs.
- A call's answer is an `Outcome`: no response at all (`TransportErr`), or a
  status with the result of decoding its body (`Decoded` or `Malformed`).
- The user store is a partial function `string -> Option<User>`.
- `PasswordMatches` is a function giving its `(valid, err)` pair.
- Posting a log entry is a function giving `Sent(status)` or `SendErr`.
- Each handler also returns the calls it made (`Broker.Run.calls`,
  `AuthService.Run.effects`). So "no downstream call" and "no lookup" are
  statements about a trace.
- The `errJSON` helper's default status is the parameter `defaultStatus`.
  Every statement holds for any value of it.

Modules:

- `Http`: the envelope, the reply, decode results, and `errJSON`.
- `Broker`: `broker-service/cmd/api/handlers.go`.
- `AuthService`: `authentication-service/cmd/api/handlers.go`.
- `Composition`: the broker calling the authentication service.

The composition shows a fact that spans both services. The authentication
service answers bad credentials with 400, never 401. So the broker's
"invalid credentials" branch cannot be reached against it. Bad credentials,
and a login whose log entry could not be sent, reach the broker's caller as
"error calling auth service".

Status codes as the code writes them:

- A downstream 401 is answered with `errJSON`'s default status
  (`broker-service/cmd/api/handlers.go:76`). Only a 202 whose envelope has
  `error=true` is answered with 401 (`:92`, `:137`).
- Only `authenticate` has a 401 branch. `WriteLog` treats every status other
  than 202 alike (`broker-service/cmd/api/handlers.go:123`).
- `WriteLog` also answers a downstream envelope with `error=true` with 401
  (`broker-service/cmd/api/handlers.go:137`), although no credentials are
  involved there.

## Model

| member | source | states |
|---|---|---|
| `Broker.Forward` | broker-service/cmd/api/handlers.go:47-54 | "auth" leads to a call carrying exactly the `Auth` sub-payload, "logger" to one carrying exactly the `Logger` sub-payload. Every other action, "" included, leads to no call. |
| `Broker.HandleSubmission` | broker-service/cmd/api/handlers.go:36-56 | At most one downstream call per request. A body that fails to decode gives an error with the decode error's text, the default status and no call. An unknown action gives "no such action available" with no call. A routed action makes exactly the call carrying its sub-payload. The reply succeeds iff that call's outcome is a clean 202. It then has status 202 and carries the downstream data. Every error reply carries no data. |
| `Broker.Authenticate` | broker-service/cmd/api/handlers.go:58-104 | Success iff the call got a 202 whose body decodes to an envelope with `error=false`. Success is status 202, "Authenticated!" and the downstream data unchanged. A transport failure gives its own error text with the default status. A 401 gives "invalid credentials". Any status other than 401 and 202 gives "error calling auth service". A 202 whose body does not decode gives the decode error's text with the default status. A downstream envelope with `error=true` gives an error with status 401 and the nil-error message. Errors carry no data. |
| `Broker.WriteLog` | broker-service/cmd/api/handlers.go:106-148 | Success iff the call got a 202 whose body decodes to an envelope with `error=false`. Success is status 202, "Logged" and the downstream data unchanged. A transport failure gives its own error text. Every status other than 202, 401 included, gives "error calling logger service" with the default status. A 202 whose body does not decode gives the decode error's text with the default status. A downstream envelope with `error=true` gives status 401 and the nil-error message. Errors carry no data. |
| `Broker.OtherSubPayloadIgnored` | broker-service/cmd/api/handlers.go:47-51 | Two requests with the same action and the same sub-payload for that action are handled identically, whatever the other sub-payload holds. |
| `Broker.RoutedReply` | broker-service/cmd/api/handlers.go:48-51 | On "auth" the reply is `authenticate`'s classification of the auth call's outcome. On "logger" it is `WriteLog`'s classification of the logger call's outcome. |
| `Broker.BodyReadOnlyWhenAccepted` | broker-service/cmd/api/handlers.go:75-134 | For any status other than 202, neither target's reply depends on the response body: the body is decoded only after a 202. |
| `Broker.LoggerNonAcceptedUniform` | broker-service/cmd/api/handlers.go:123-126 | The logger target gives one and the same reply for every status other than 202, 401 included. |
| `Broker.DownstreamErrorIsUnauthorized` | broker-service/cmd/api/handlers.go:91-139 | A 202 whose decoded envelope has `error=true` gives, on both targets, an error with status 401, no data, and the error that is nil at that point as its message. This holds whatever the envelope's own message and data are. |
| `Broker.TargetsAgreeOffUnauthorized` | broker-service/cmd/api/handlers.go:58-148 | On every outcome except a 401, the two targets give the same status, error flag and data. |
| `Broker.TargetsDifferOnlyOnUnauthorized` | broker-service/cmd/api/handlers.go:58-148 | On every outcome except a 401, the two targets' replies agree up to renaming "error calling logger service"/"Logged" to "error calling auth service"/"Authenticated!". This holds when no transport error text, and no decode error text of a 202 body, is itself one of those two logger texts. |
| `Broker.RepliesFollowFailures` | broker-service/cmd/api/handlers.go:36-148 | Compares the handler with an independent list of failure categories: undecodable body, unknown action, no response, 401 at the auth target, other status, undecodable response, downstream refusal. The handler fails exactly when the request runs into one of them. It answers with that category's status: 401 only for a downstream refusal, the default status otherwise, and 202 when nothing fails. |
| `AuthService.LogRequest` | authentication-service/cmd/api/handlers.go:51-75 | `logRequest` reports an error iff building or sending the request failed, and that error is the one returned. A response with any status, error statuses included, is no error. |
| `AuthService.LoggerStatusIrrelevant` | authentication-service/cmd/api/handlers.go:36-40 | Two loggers that both answer every post, with whatever statuses, give every login the same reply and the same effects: the logger's status never decides a login. |
| `AuthService.Authenticate` | authentication-service/cmd/api/handlers.go:11-49 | The status is always 202 or 400, never 401, and it is 400 exactly when the reply is an error. A decode failure gives 400 with no lookup. An unknown email gives "invalid credentials" after the lookup only. A failed password check gives "invalid credentials" after lookup and check. A log entry named "authentication" with data "<user's email> logged in" is posted iff the credentials are valid. A failed post fails the request with the post's error. Success iff the credentials are valid and the post was sent. Success carries "Logged in user <email>" and the user row. Errors carry no data. |
| `AuthService.BadCredentialsIndistinguishable` | authentication-service/cmd/api/handlers.go:24-33 | An unknown email, a password mismatch and a password check that errs all give the identical reply. |
| `AuthService.LogEntryIdentifiesUser` | authentication-service/cmd/api/handlers.go:36 | Two logins, under any stores, checks and loggers, that posted log entries with the same data found users with the same email. |
| `AuthService.SuccessMessageIdentifiesUser` | authentication-service/cmd/api/handlers.go:42-48 | Two successful logins, under any stores, checks and loggers, whose replies carry the same message found users with the same email. |
| `Composition.AuthActionAnswers` | broker-service/cmd/api/handlers.go:75-102 | Against the authentication service the broker's auth call has two answers only. It is either "error calling auth service" with the default status, or a 202 "Authenticated!" carrying data. The message is never "invalid credentials" and never the nil-error message of the 401 branch. |
| `Composition.BadCredentialsSurfaceAsCallError` | authentication-service/cmd/api/handlers.go:24-33 | An "auth" request with bad credentials makes exactly one call, carrying its credentials. Its reply is "error calling auth service" with the default status, whatever the logger sub-payload holds. |
| `Composition.LogFailureSurfacesAsCallError` | authentication-service/cmd/api/handlers.go:36-40 | Valid credentials whose log entry could not be sent reach the broker's caller as "error calling auth service", like bad credentials. |
| `Composition.ValidLoginAuthenticates` | authentication-service/cmd/api/handlers.go:42-48 | Valid credentials and a sent log entry give the broker's 202 "Authenticated!" reply, carrying the user row the service found. |

## Left out

- JSON reading, writing and error rendering (`readJSON`, `writeJSON`, `errJSON`) are not part of this model. A decode is abstract: it either yields the value sent or fails with a text. Any body-size limit is therefore not modelled.
- The rendering of the nil `error` that `errJSON` receives at `broker-service/cmd/api/handlers.go:92` and `:137` is abstract (`Message.NilError`). Only `error=true`, no data and status 401 are stated there.
- The 401 replies at `broker-service/cmd/api/handlers.go:92` and `:137` are written only if `errJSON` accepts a nil `error`. If it renders `err.Error()`, the Go handler panics there and writes no reply. `Broker.DownstreamErrorIsUnauthorized`, `Broker.RepliesFollowFailures` and the 401 clauses of `Broker.Authenticate` and `Broker.WriteLog` rest on that helper.
- The status `errJSON` writes when none is given lives in that helper. It is the parameter `defaultStatus`.
- `json.MarshalIndent` of the sub-payloads and of the log entry: its error is discarded, so a sub-payload is taken as sent verbatim.
- Request construction, the HTTP client and `defer response.Body.Close()` are I/O. A failing `http.NewRequest` and a failing `client.Do` both go to `errJSON(w, err)` or `return err`. Both are the one outcome `TransportErr` (`SendErr` for `logRequest`).
- `GetByEmail` and `PasswordMatches` (database and password hashing) are parameters. The columns of a user other than its email are an uninterpreted `record`.
- The logger service itself is not part of this model. Its answers are a parameter.
- `Composition` assumes the broker's call reaches the authentication service and that JSON round-trips between them. A failure of that call is covered by `Broker.Authenticate` on its own.
- The `Broker` health handler (`broker-service/cmd/api/handlers.go:26-34`) returns a constant and is not modelled.
- Concurrency between requests is not modelled: all state is per request.
