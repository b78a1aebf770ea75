/**
  The broker calling the authentication service. The `AuthPayload` the broker
  forwards is what the service decodes, and the service's reply is what the
  broker receives: JSON encoding round-trips, and the call is taken to reach
  the service. The logger service is left as the parameter `logger`.
 */
module Composition {
  import opened Http
  import Broker
  import AuthService

  /** The service's reply as the broker's call sees it. */
  function Deliver(reply: Reply<AuthService.User>): Broker.Outcome<AuthService.User>
  {
    Broker.Responded(reply.status, Decoded(reply.envelope))
  }

  /** The forwarded credentials, as the authentication service decodes them. */
  function AsCredentials(p: Broker.AuthPayload): AuthService.Credentials
  {
    AuthService.Credentials(p.email, p.password)
  }

  /** The authentication service's run for one forwarded payload. */
  function ServiceRun(
    p: Broker.AuthPayload,
    users: string -> Option<AuthService.User>,
    check: (AuthService.User, string) -> AuthService.PasswordCheck,
    send: AuthService.LogEntry -> AuthService.SendOutcome
  ): AuthService.Run
  {
    AuthService.Authenticate(Decoded(AsCredentials(p)), users, check, send)
  }

  /** Every downstream the broker can call: the authentication service as
      modelled, the logger service as given. */
  function Downstream(
    users: string -> Option<AuthService.User>,
    check: (AuthService.User, string) -> AuthService.PasswordCheck,
    send: AuthService.LogEntry -> AuthService.SendOutcome,
    logger: Broker.LoggerPayload -> Broker.Outcome<AuthService.User>
  ): Broker.Call -> Broker.Outcome<AuthService.User>
  {
    (c: Broker.Call) =>
      match c
      case AuthCall(p) => Deliver(ServiceRun(p, users, check, send).reply)
      case LogCall(l) => logger(l)
  }

  /** The broker's reply to an "auth" request whose credentials are `p`. */
  function BrokerAuth(
    p: Broker.AuthPayload,
    users: string -> Option<AuthService.User>,
    check: (AuthService.User, string) -> AuthService.PasswordCheck,
    send: AuthService.LogEntry -> AuthService.SendOutcome,
    defaultStatus: int
  ): Reply<AuthService.User>
  {
    Broker.Authenticate(Deliver(ServiceRun(p, users, check, send).reply), defaultStatus)
  }

  /** Against this service the broker's "auth" action has exactly two
      answers: the service's user, or "error calling auth service". Neither
      the 401 branch nor the downstream-error branch is ever taken. */
  lemma AuthActionAnswers(
    p: Broker.AuthPayload,
    users: string -> Option<AuthService.User>,
    check: (AuthService.User, string) -> AuthService.PasswordCheck,
    send: AuthService.LogEntry -> AuthService.SendOutcome,
    defaultStatus: int
  )
    ensures var r := BrokerAuth(p, users, check, send, defaultStatus);
            || r == ErrJson(Text(Broker.AuthCallFailed), defaultStatus)
            || (r.status == StatusAccepted && !r.Failed() && r.envelope.message == Text(Broker.Authenticated)
                && r.envelope.data.Some?)
    ensures BrokerAuth(p, users, check, send, defaultStatus).envelope.message != Text(Broker.InvalidCredentials)
    ensures BrokerAuth(p, users, check, send, defaultStatus).envelope.message != NilError
  {
  }

  /** Bad credentials reach the broker's caller as "error calling auth
      service", not "invalid credentials". */
  lemma BadCredentialsSurfaceAsCallError(
    p: Broker.AuthPayload,
    users: string -> Option<AuthService.User>,
    check: (AuthService.User, string) -> AuthService.PasswordCheck,
    send: AuthService.LogEntry -> AuthService.SendOutcome,
    logger: Broker.LoggerPayload -> Broker.Outcome<AuthService.User>,
    other: Broker.LoggerPayload,
    defaultStatus: int
  )
    requires !AuthService.ValidFor(AsCredentials(p), users, check)
    ensures var run := Broker.HandleSubmission(Decoded(Broker.RequestPayload("auth", p, other)),
                                               Downstream(users, check, send, logger), defaultStatus);
            && run.calls == [Broker.AuthCall(p)]
            && run.reply == ErrJson(Text(Broker.AuthCallFailed), defaultStatus)
  {
    var call := Broker.AuthCall(p);
    assert Downstream(users, check, send, logger)(call) == Deliver(ServiceRun(p, users, check, send).reply);
  }

  /** A login that the logger service could not be told about fails at the
      broker exactly as bad credentials do. */
  lemma LogFailureSurfacesAsCallError(
    p: Broker.AuthPayload,
    users: string -> Option<AuthService.User>,
    check: (AuthService.User, string) -> AuthService.PasswordCheck,
    send: AuthService.LogEntry -> AuthService.SendOutcome,
    defaultStatus: int
  )
    requires AuthService.ValidFor(AsCredentials(p), users, check)
    requires send(AuthService.LogEntry(AuthService.LogName, AuthService.LoggedInData(users(p.email).value.email))).SendErr?
    ensures BrokerAuth(p, users, check, send, defaultStatus) == ErrJson(Text(Broker.AuthCallFailed), defaultStatus)
  {
  }

  /** Valid credentials and a log that was sent give the broker's success
      reply, carrying the user row the service found. */
  lemma ValidLoginAuthenticates(
    p: Broker.AuthPayload,
    users: string -> Option<AuthService.User>,
    check: (AuthService.User, string) -> AuthService.PasswordCheck,
    send: AuthService.LogEntry -> AuthService.SendOutcome,
    defaultStatus: int
  )
    requires AuthService.ValidFor(AsCredentials(p), users, check)
    requires send(AuthService.LogEntry(AuthService.LogName, AuthService.LoggedInData(users(p.email).value.email))).Sent?
    ensures BrokerAuth(p, users, check, send, defaultStatus) == Accepted(Broker.Authenticated, Some(users(p.email).value))
  {
  }
}
