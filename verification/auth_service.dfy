/**
  The authentication service's handler
  (`authentication-service/cmd/api/handlers.go`): `Authenticate`, a chain of
  steps each of which can end the request with an error, and `logRequest`,
  through which a successful login is reported to the logger service.

  The user store (`GetByEmail`), the password hash check (`PasswordMatches`)
  and the HTTP call to the logger service are parameters: the model states
  what the handler does with each possible answer.
 */
module AuthService {
  import opened Http

  /** The request body the handler decodes. */
  datatype Credentials = Credentials(email: string, password: string)

  /** A row of the users table. The handler reads only `email`; the other
      columns are carried along untouched as `record`. */
  datatype User = User(email: string, record: map<string, string>)

  /** The pair `(valid, err)` returned by `PasswordMatches`. */
  datatype PasswordCheck = PasswordCheck(valid: bool, err: Option<string>)

  /** The body `logRequest` posts to the logger service. */
  datatype LogEntry = LogEntry(name: string, data: string)

  /** What posting a log entry came back with: a response with some status,
      or an error before any response (building or sending the request). */
  datatype SendOutcome = Sent(status: int) | SendErr(text: string)

  /** A collaborator the handler consulted, in order. */
  datatype Effect =
    | Lookup(email: string)
    | CheckPassword(user: User, password: string)
    | PostLog(entry: LogEntry)

  /** What handling one request produced: the reply and the effects. */
  datatype Run = Run(reply: Reply<User>, effects: seq<Effect>)

  const InvalidCredentials := "invalid credentials"
  const LogName := "authentication"

  /** `fmt.Sprintf("%s logged in", email)`: the log entry's data. */
  function LoggedInData(email: string): string
  {
    email + " logged in"
  }

  /** `fmt.Sprintf("Logged in user %s", email)`: the success message. */
  function LoggedInMessage(email: string): string
  {
    "Logged in user " + email
  }

  /** The credentials check out: the email names a user and the password
      check reports a match without an error. */
  predicate ValidFor(c: Credentials, users: string -> Option<User>, check: (User, string) -> PasswordCheck)
  {
    && users(c.email).Some?
    && check(users(c.email).value, c.password) == PasswordCheck(true, None)
  }

  /** `logRequest`: the error it returns, if any. Only a failure to build or
      send the request is an error; the logger's status code is never read. */
  function LogRequest(entry: LogEntry, send: LogEntry -> SendOutcome): (err: Option<string>)
    ensures err.None? <==> send(entry).Sent?
    ensures err.Some? ==> send(entry) == SendErr(err.value)
  {
    match send(entry)
    case SendErr(t) => Some(t)
    case Sent(_) => None
  }

  /** `Authenticate`: decode, look the user up, check the password, report
      the login, answer. Each step that fails ends the request. */
  function Authenticate(
    req: Decoding<Credentials>,
    users: string -> Option<User>,
    check: (User, string) -> PasswordCheck,
    send: LogEntry -> SendOutcome
  ): (run: Run)
    ensures run.reply.status == StatusAccepted || run.reply.status == StatusBadRequest
    ensures run.reply.Failed() <==> run.reply.status == StatusBadRequest
    ensures req.Malformed? ==> run.effects == [] && run.reply.envelope.message == Text(req.text)
    ensures req.Decoded? && users(req.value.email).None? ==>
              run.effects == [Lookup(req.value.email)]
              && run.reply.Failed() && run.reply.envelope.message == Text(InvalidCredentials)
    ensures req.Decoded? && users(req.value.email).Some? && !ValidFor(req.value, users, check) ==>
              run.effects == [Lookup(req.value.email), CheckPassword(users(req.value.email).value, req.value.password)]
              && run.reply.Failed() && run.reply.envelope.message == Text(InvalidCredentials)
    ensures (exists e :: PostLog(e) in run.effects) <==> req.Decoded? && ValidFor(req.value, users, check)
    ensures req.Decoded? && ValidFor(req.value, users, check) ==>
              var u := users(req.value.email).value;
              && run.effects == [Lookup(req.value.email), CheckPassword(u, req.value.password),
                                 PostLog(LogEntry(LogName, LoggedInData(u.email)))]
              && (send(LogEntry(LogName, LoggedInData(u.email))).SendErr? ==>
                    run.reply.Failed()
                    && run.reply.envelope.message == Text(send(LogEntry(LogName, LoggedInData(u.email))).text))
    ensures !run.reply.Failed() <==>
              && req.Decoded? && ValidFor(req.value, users, check)
              && send(LogEntry(LogName, LoggedInData(users(req.value.email).value.email))).Sent?
    ensures !run.reply.Failed() ==>
              && run.reply.envelope.message == Text(LoggedInMessage(users(req.value.email).value.email))
              && run.reply.envelope.data == Some(users(req.value.email).value)
    ensures run.reply.Failed() ==> run.reply.envelope.data == None
  {
    match req
    case Malformed(t) => Run(ErrJson(Text(t), StatusBadRequest), [])
    case Decoded(c) =>
      var looked := [Lookup(c.email)];
      match users(c.email)
      case None => Run(ErrJson(Text(InvalidCredentials), StatusBadRequest), looked)
      case Some(u) =>
        var checked := looked + [CheckPassword(u, c.password)];
        var pc := check(u, c.password);
        if !pc.valid || pc.err.Some? then
          Run(ErrJson(Text(InvalidCredentials), StatusBadRequest), checked)
        else
          var entry := LogEntry(LogName, LoggedInData(u.email));
          var logged := checked + [PostLog(entry)];
          match LogRequest(entry, send)
          case Some(t) => Run(ErrJson(Text(t), StatusBadRequest), logged)
          case None => Run(Accepted(LoggedInMessage(u.email), Some(u)), logged)
  }

  /** A password that does not match, or a check that errs, is answered
      exactly as an unknown email is: the caller cannot tell which. */
  lemma BadCredentialsIndistinguishable(
    c: Credentials,
    unknown: string -> Option<User>,
    known: string -> Option<User>,
    check: (User, string) -> PasswordCheck,
    send: LogEntry -> SendOutcome)
    requires unknown(c.email).None?
    requires known(c.email).Some? && !ValidFor(c, known, check)
    ensures Authenticate(Decoded(c), unknown, check, send).reply == Authenticate(Decoded(c), known, check, send).reply
  {
  }

  /** The logger's status code has no bearing on a login: two loggers that
      both answer, with whatever statuses, leave every reply unchanged. */
  lemma LoggerStatusIrrelevant(
    req: Decoding<Credentials>,
    users: string -> Option<User>,
    check: (User, string) -> PasswordCheck,
    send: LogEntry -> SendOutcome,
    send': LogEntry -> SendOutcome)
    requires forall e :: send(e).Sent? && send'(e).Sent?
    ensures Authenticate(req, users, check, send) == Authenticate(req, users, check, send')
  {
  }

  /** Different emails are logged with different data. */
  lemma LoggedInDataInjective(email: string, email': string)
    requires LoggedInData(email) == LoggedInData(email')
    ensures email == email'
  {
    assert |email| == |email'|;
    assert email == LoggedInData(email)[..|email|];
    assert email' == LoggedInData(email')[..|email'|];
  }

  /** Different emails get different success messages. */
  lemma LoggedInMessageInjective(email: string, email': string)
    requires LoggedInMessage(email) == LoggedInMessage(email')
    ensures email == email'
  {
    var prefix := "Logged in user ";
    assert email == LoggedInMessage(email)[|prefix|..];
    assert email' == LoggedInMessage(email')[|prefix|..];
  }

  /** Two successful logins, under any stores, checks and loggers, whose
      replies carry the same message logged in users with the same email. */
  lemma SuccessMessageIdentifiesUser(
    req: Decoding<Credentials>, users: string -> Option<User>,
    check: (User, string) -> PasswordCheck, send: LogEntry -> SendOutcome,
    req': Decoding<Credentials>, users': string -> Option<User>,
    check': (User, string) -> PasswordCheck, send': LogEntry -> SendOutcome)
    requires !Authenticate(req, users, check, send).reply.Failed()
    requires !Authenticate(req', users', check', send').reply.Failed()
    requires Authenticate(req, users, check, send).reply.envelope.message
             == Authenticate(req', users', check', send').reply.envelope.message
    ensures && req.Decoded? && users(req.value.email).Some?
            && req'.Decoded? && users'(req'.value.email).Some?
            && users(req.value.email).value.email == users'(req'.value.email).value.email
  {
    LoggedInMessageInjective(users(req.value.email).value.email, users'(req'.value.email).value.email);
  }

  /** Two logins that posted log entries with the same data, under any
      stores, checks and loggers, were logins of users with the same email. */
  lemma LogEntryIdentifiesUser(
    req: Decoding<Credentials>, users: string -> Option<User>,
    check: (User, string) -> PasswordCheck, send: LogEntry -> SendOutcome,
    req': Decoding<Credentials>, users': string -> Option<User>,
    check': (User, string) -> PasswordCheck, send': LogEntry -> SendOutcome,
    entry: LogEntry, entry': LogEntry)
    requires PostLog(entry) in Authenticate(req, users, check, send).effects
    requires PostLog(entry') in Authenticate(req', users', check', send').effects
    requires entry.data == entry'.data
    ensures && req.Decoded? && users(req.value.email).Some?
            && req'.Decoded? && users'(req'.value.email).Some?
            && users(req.value.email).value.email == users'(req'.value.email).value.email
  {
    var u, u' := users(req.value.email).value, users'(req'.value.email).value;
    assert entry == LogEntry(LogName, LoggedInData(u.email));
    assert entry' == LogEntry(LogName, LoggedInData(u'.email));
    LoggedInDataInjective(u.email, u'.email);
  }
}
