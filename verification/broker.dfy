/**
  The broker's dispatch layer (`broker-service/cmd/api/handlers.go`): the
  `HandleSubmission` routing switch and the two downstream calls it makes,
  `authenticate` (to the authentication service) and `WriteLog` (to the
  logger service).

  HTTP is abstracted to the outcome of one call (`Outcome`); the default
  status of the `errJSON` helper, which is not part of this model, is the
  parameter `defaultStatus`.
 */
module Broker {
  import opened Http

  /** `AuthPayload`: the credentials forwarded to the authentication service. */
  datatype AuthPayload = AuthPayload(email: string, password: string)

  /** `LoggerPayload`: the entry forwarded to the logger service. */
  datatype LoggerPayload = LoggerPayload(name: string, data: string)

  /** `RequestPayload`: the inbound envelope. Both sub-payloads are plain
      structs, so a sub-payload missing from the JSON is its zero value. */
  datatype RequestPayload = RequestPayload(action: string, auth: AuthPayload, logger: LoggerPayload)

  /** One outbound call, with the sub-payload sent as its body. */
  datatype Call = AuthCall(credentials: AuthPayload) | LogCall(entry: LoggerPayload)

  /** What one outbound call came back with: either no HTTP response at all
      (building or sending the request failed), or a status code together
      with what decoding the body as an envelope would give. */
  datatype Outcome<+D> =
    | TransportErr(text: string)
    | Responded(status: int, body: Decoding<Envelope<D>>)

  /** What handling one inbound request produced: the reply to the caller and
      the outbound calls made, in order. */
  datatype Run<+D> = Run(reply: Reply<D>, calls: seq<Call>)

  const NoSuchAction := "no such action available"
  const InvalidCredentials := "invalid credentials"
  const AuthCallFailed := "error calling auth service"
  const LoggerCallFailed := "error calling logger service"
  const Authenticated := "Authenticated!"
  const Logged := "Logged"

  /** The call went through cleanly: status 202, a body that decodes, and a
      downstream envelope that does not report an error. */
  predicate CleanAccept<D>(o: Outcome<D>) {
    && o.Responded?
    && o.status == StatusAccepted
    && o.body.Decoded?
    && !o.body.value.error
  }

  /** The call reached a 202 and its envelope decoded, but the downstream
      service reported an error in it. */
  predicate DownstreamRefused<D>(o: Outcome<D>) {
    && o.Responded?
    && o.status == StatusAccepted
    && o.body.Decoded?
    && o.body.value.error
  }

  /** The switch of `HandleSubmission`: the call an action leads to, carrying
      only the sub-payload the action names. */
  function Forward(p: RequestPayload): (c: Option<Call>)
    ensures c.Some? <==> p.action == "auth" || p.action == "logger"
    ensures c == Some(AuthCall(p.auth)) <==> p.action == "auth"
    ensures c == Some(LogCall(p.logger)) <==> p.action == "logger"
  {
    match p.action
    case "auth" => Some(AuthCall(p.auth))
    case "logger" => Some(LogCall(p.logger))
    case _ => None
  }

  /** The part both targets share once the status is 202: decode the body,
      propagate a downstream error as 401, or wrap the downstream data. */
  function AcceptedBody<D>(body: Decoding<Envelope<D>>, success: string, defaultStatus: int): Reply<D>
  {
    match body
    case Malformed(t) => ErrJson(Text(t), defaultStatus)
    case Decoded(env) =>
      // `err` is nil here: the decode just succeeded
      if env.error then ErrJson(NilError, StatusUnauthorized)
      else Accepted(success, env.data)
  }

  /** `authenticate`: classify the authentication service's answer. */
  function Authenticate<D>(o: Outcome<D>, defaultStatus: int): (r: Reply<D>)
    ensures !r.Failed() <==> CleanAccept(o)
    ensures !r.Failed() ==>
              && r.status == StatusAccepted
              && r.envelope.message == Text(Authenticated)
              && r.envelope.data == o.body.value.data
    ensures r.Failed() ==> r.envelope.data == None
    ensures o.TransportErr? ==> r.status == defaultStatus && r.envelope.message == Text(o.text)
    ensures o.Responded? && o.status == StatusUnauthorized ==>
              r.Failed() && r.status == defaultStatus && r.envelope.message == Text(InvalidCredentials)
    ensures o.Responded? && o.status != StatusUnauthorized && o.status != StatusAccepted ==>
              r.Failed() && r.status == defaultStatus && r.envelope.message == Text(AuthCallFailed)
    ensures o.Responded? && o.status == StatusAccepted && o.body.Malformed? ==>
              r.Failed() && r.status == defaultStatus && r.envelope.message == Text(o.body.text)
    ensures DownstreamRefused(o) ==>
              r.Failed() && r.status == StatusUnauthorized && r.envelope.message == NilError
  {
    match o
    case TransportErr(t) => ErrJson(Text(t), defaultStatus)
    case Responded(status, body) =>
      if status == StatusUnauthorized then ErrJson(Text(InvalidCredentials), defaultStatus)
      else if status != StatusAccepted then ErrJson(Text(AuthCallFailed), defaultStatus)
      else AcceptedBody(body, Authenticated, defaultStatus)
  }

  /** `WriteLog`: classify the logger service's answer. */
  function WriteLog<D>(o: Outcome<D>, defaultStatus: int): (r: Reply<D>)
    ensures !r.Failed() <==> CleanAccept(o)
    ensures !r.Failed() ==>
              && r.status == StatusAccepted
              && r.envelope.message == Text(Logged)
              && r.envelope.data == o.body.value.data
    ensures r.Failed() ==> r.envelope.data == None
    ensures o.TransportErr? ==> r.status == defaultStatus && r.envelope.message == Text(o.text)
    ensures o.Responded? && o.status != StatusAccepted ==>
              r.Failed() && r.status == defaultStatus && r.envelope.message == Text(LoggerCallFailed)
    ensures o.Responded? && o.status == StatusAccepted && o.body.Malformed? ==>
              r.Failed() && r.status == defaultStatus && r.envelope.message == Text(o.body.text)
    ensures DownstreamRefused(o) ==>
              r.Failed() && r.status == StatusUnauthorized && r.envelope.message == NilError
  {
    match o
    case TransportErr(t) => ErrJson(Text(t), defaultStatus)
    case Responded(status, body) =>
      if status != StatusAccepted then ErrJson(Text(LoggerCallFailed), defaultStatus)
      else AcceptedBody(body, Logged, defaultStatus)
  }

  /** The reply the handler for a call's target gives to that call's outcome. */
  function Classify<D>(c: Call, o: Outcome<D>, defaultStatus: int): Reply<D>
  {
    match c
    case AuthCall(_) => Authenticate(o, defaultStatus)
    case LogCall(_) => WriteLog(o, defaultStatus)
  }

  /** `HandleSubmission`: decode the inbound envelope, route on its action and
      make at most one downstream call, whose answer `downstream` gives. */
  function HandleSubmission<D>(req: Decoding<RequestPayload>, downstream: Call -> Outcome<D>, defaultStatus: int): (run: Run<D>)
    ensures |run.calls| <= 1
    ensures req.Malformed? ==>
              run.calls == [] && run.reply.Failed() && run.reply.status == defaultStatus
              && run.reply.envelope.message == Text(req.text)
    ensures req.Decoded? && req.value.action != "auth" && req.value.action != "logger" ==>
              run.calls == [] && run.reply.Failed() && run.reply.status == defaultStatus
              && run.reply.envelope.message == Text(NoSuchAction)
    ensures req.Decoded? && req.value.action == "auth" ==> run.calls == [AuthCall(req.value.auth)]
    ensures req.Decoded? && req.value.action == "logger" ==> run.calls == [LogCall(req.value.logger)]
    ensures !run.reply.Failed() <==> |run.calls| == 1 && CleanAccept(downstream(run.calls[0]))
    ensures !run.reply.Failed() ==>
              run.reply.status == StatusAccepted
              && run.reply.envelope.data == downstream(run.calls[0]).body.value.data
    ensures run.reply.Failed() ==> run.reply.envelope.data == None
  {
    match req
    case Malformed(t) => Run(ErrJson(Text(t), defaultStatus), [])
    case Decoded(p) =>
      match Forward(p)
      case None => Run(ErrJson(Text(NoSuchAction), defaultStatus), [])
      case Some(c) => Run(Classify(c, downstream(c), defaultStatus), [c])
  }

  /** Whatever the sub-payload the action does not name holds, the request is
      handled the same way. */
  lemma OtherSubPayloadIgnored<D>(p: RequestPayload, q: RequestPayload, downstream: Call -> Outcome<D>, defaultStatus: int)
    requires p.action == q.action
    requires p.action == "auth" ==> p.auth == q.auth
    requires p.action == "logger" ==> p.logger == q.logger
    ensures HandleSubmission(Decoded(p), downstream, defaultStatus) == HandleSubmission(Decoded(q), downstream, defaultStatus)
  {
  }

  /** Neither target reads the response body unless the status is 202. */
  lemma BodyReadOnlyWhenAccepted<D>(status: int, b: Decoding<Envelope<D>>, b': Decoding<Envelope<D>>, defaultStatus: int)
    requires status != StatusAccepted
    ensures Authenticate(Responded(status, b), defaultStatus) == Authenticate(Responded(status, b'), defaultStatus)
    ensures WriteLog(Responded(status, b), defaultStatus) == WriteLog(Responded(status, b'), defaultStatus)
  {
  }

  /** The logger target has no 401 branch: every non-202 status, 401
      included, gives the same reply. */
  lemma LoggerNonAcceptedUniform<D>(o: Outcome<D>, o': Outcome<D>, defaultStatus: int)
    requires o.Responded? && o.status != StatusAccepted
    requires o'.Responded? && o'.status != StatusAccepted
    ensures WriteLog(o, defaultStatus) == WriteLog(o', defaultStatus)
  {
  }

  /** A downstream envelope reporting an error becomes a 401 error reply with
      no data on both targets, whatever the envelope's message and data. */
  lemma DownstreamErrorIsUnauthorized<D>(env: Envelope<D>, defaultStatus: int)
    requires env.error
    ensures Authenticate(Responded(StatusAccepted, Decoded(env)), defaultStatus) == ErrJson(NilError, StatusUnauthorized)
    ensures WriteLog(Responded(StatusAccepted, Decoded(env)), defaultStatus) == ErrJson(NilError, StatusUnauthorized)
  {
  }

  /** The logger's message texts renamed to the authentication target's. */
  function AsAuthMessage(m: Message): Message
  {
    if m == Text(LoggerCallFailed) then Text(AuthCallFailed)
    else if m == Text(Logged) then Text(Authenticated)
    else m
  }

  /** Off the 401 status the two targets give the same status, error flag
      and data. */
  lemma TargetsAgreeOffUnauthorized<D>(o: Outcome<D>, defaultStatus: int)
    requires !(o.Responded? && o.status == StatusUnauthorized)
    ensures var a, l := Authenticate(o, defaultStatus), WriteLog(o, defaultStatus);
            a.status == l.status && a.Failed() == l.Failed() && a.envelope.data == l.envelope.data
  {
  }

  /** Off the 401 status the two targets' messages differ only in their own
      texts, provided no error text passed through is one of the logger's. */
  lemma TargetsDifferOnlyOnUnauthorized<D>(o: Outcome<D>, defaultStatus: int)
    requires !(o.Responded? && o.status == StatusUnauthorized)
    requires o.TransportErr? ==> o.text != LoggerCallFailed && o.text != Logged
    requires o.Responded? && o.status == StatusAccepted && o.body.Malformed? ==>
               o.body.text != LoggerCallFailed && o.body.text != Logged
    ensures var a, l := Authenticate(o, defaultStatus), WriteLog(o, defaultStatus);
            a == Reply(l.status, Envelope(l.envelope.error, AsAuthMessage(l.envelope.message), l.envelope.data))
  {
  }

  /** On a routed action the reply is that target's classification of the
      one call made. */
  lemma RoutedReply<D>(p: RequestPayload, downstream: Call -> Outcome<D>, defaultStatus: int)
    ensures p.action == "auth" ==>
              HandleSubmission(Decoded(p), downstream, defaultStatus).reply
              == Authenticate(downstream(AuthCall(p.auth)), defaultStatus)
    ensures p.action == "logger" ==>
              HandleSubmission(Decoded(p), downstream, defaultStatus).reply
              == WriteLog(downstream(LogCall(p.logger)), defaultStatus)
  {
  }

  /** The failure categories of the dispatch layer, in the order in which
      they can end a request. */
  datatype Failure =
    | BadRequestBody                    // the inbound envelope did not decode
    | UnknownAction                     // the action names no target
    | Unreachable                       // the downstream call got no response
    | Unauthorized                      // the authentication target answered 401
    | UnexpectedStatus(status: int)     // any other status than 202
    | BadResponseBody                   // a 202 whose body did not decode
    | Refused                           // a 202 whose envelope reports an error

  /** The first failure a request runs into, if any, stated independently of
      how the reply is built. */
  function Diagnose<D>(req: Decoding<RequestPayload>, downstream: Call -> Outcome<D>): Option<Failure>
  {
    if req.Malformed? then Some(BadRequestBody)
    else if req.value.action != "auth" && req.value.action != "logger" then Some(UnknownAction)
    else
      var c := if req.value.action == "auth" then AuthCall(req.value.auth) else LogCall(req.value.logger);
      var o := downstream(c);
      if o.TransportErr? then Some(Unreachable)
      else if o.status == StatusUnauthorized && c.AuthCall? then Some(Unauthorized)
      else if o.status != StatusAccepted then Some(UnexpectedStatus(o.status))
      else if o.body.Malformed? then Some(BadResponseBody)
      else if o.body.value.error then Some(Refused)
      else None
  }

  /** The status each failure category is answered with. */
  function FailureStatus(f: Failure, defaultStatus: int): int
  {
    if f == Refused then StatusUnauthorized else defaultStatus
  }

  /** The handler fails exactly when the request runs into a failure, and
      answers with that failure's status; only a downstream refusal is 401. */
  lemma RepliesFollowFailures<D>(req: Decoding<RequestPayload>, downstream: Call -> Outcome<D>, defaultStatus: int)
    ensures var run := HandleSubmission(req, downstream, defaultStatus);
            var f := Diagnose(req, downstream);
            && (run.reply.Failed() <==> f.Some?)
            && (f.Some? ==> run.reply.status == FailureStatus(f.value, defaultStatus))
            && (f.None? ==> run.reply.status == StatusAccepted)
  {
  }
}
