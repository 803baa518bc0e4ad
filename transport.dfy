/**
 * mtsTransport of http.go: the RoundTripper that checks the token, adds the
 * library's headers, dumps the request and response when debugging, sets
 * Basic auth, delegates to the wrapped transport and turns every status
 * outside 200..299 into a service error.
 */
module Transport {
  import opened Options
  import opened Codec
  import opened Errors
  import opened Wire
  import opened Logging
  import opened Configs

  const AcceptJson := "application/json"

  /** A status RoundTrip lets through. */
  predicate IsSuccess(status: int)
  {
    200 <= status <= 299
  }

  /** What RoundTrip reads from its Config and the environment when it is called. */
  datatype Settings = Settings(token: string, userAgent: string, wrapped: RoundTripper, debug: bool)

  // ---------------------------------------------------------------------
  // The header steps.

  /** User-Agent, then Accept, each appended to whatever the caller set. */
  function Prepared(h: Header, userAgent: string): (r: Header)
    ensures Values(r, "User-Agent") == Values(h, "User-Agent") + [Text(userAgent)]
    ensures Values(r, "Accept") == Values(h, "Accept") + [Text(AcceptJson)]
    ensures forall k :: k != "User-Agent" && k != "Accept" ==> Values(r, k) == Values(h, k)
  {
    AddValue(AddValue(h, "User-Agent", Text(userAgent)), "Accept", Text(AcceptJson))
  }

  /** Basic auth with the token as user name and an empty password, replacing any earlier value. */
  function Authorized(h: Header, token: string): (r: Header)
    ensures Values(r, "Authorization") == [BasicCredentials(token, "")]
    ensures forall k :: k != "Authorization" ==> Values(r, k) == Values(h, k)
  {
    SetValue(h, "Authorization", BasicCredentials(token, ""))
  }

  /** The request as the debug dump sees it. */
  function Dumped(w: WireRequest, s: Settings): WireRequest
  {
    w.(header := Prepared(w.header, s.userAgent))
  }

  /** The request as it leaves for the wrapped transport. */
  function Outgoing(w: WireRequest, s: Settings): WireRequest
  {
    w.(header := Authorized(Prepared(w.header, s.userAgent), s.token))
  }

  /**
   * The dump is taken before Basic auth is set: it shows the caller's own
   * Authorization values (none unless the caller set one), while the request
   * sent carries exactly the token credentials; nothing else differs.
   */
  lemma DumpPrecedesAuth(w: WireRequest, s: Settings)
    ensures Values(Dumped(w, s).header, "Authorization") == Values(w.header, "Authorization")
    ensures Values(Outgoing(w, s).header, "Authorization") == [BasicCredentials(s.token, "")]
    ensures forall k :: k != "Authorization" ==>
      Values(Outgoing(w, s).header, k) == Values(Dumped(w, s).header, k)
    ensures Outgoing(w, s).url == w.url && Outgoing(w, s).verb == w.verb && Outgoing(w, s).payload == w.payload
  {
  }

  // ---------------------------------------------------------------------
  // mapResponseToError

  /** The service error built from a decoded envelope and the HTTP status. */
  function MappedError(envelope: ErrorResponse, status: int, statusText: int -> string): ServiceError
  {
    var code := if envelope.error.code == 0 then status else envelope.error.code;
    var text := if envelope.error.text == "" then statusText(code) else envelope.error.text;
    ServiceError(code, text)
  }

  /** A well-formed envelope with a code and a text is returned as the service sent it. */
  lemma MappedKeepsServiceError(e: ServiceError, status: int, statusText: int -> string)
    requires IsGoInt(e.code) && e.code != 0 && e.text != ""
    ensures MappedError(ReadEnvelope(Some(EnvelopeJson(ErrorResponse(e)))), status, statusText) == e
  {
    EnvelopeRoundTrip(ErrorResponse(e));
  }

  /** An undecodable body yields the HTTP status and its reason phrase. */
  lemma MappedMalformed(status: int, statusText: int -> string)
    ensures MappedError(ReadEnvelope(None), status, statusText) == ServiceError(status, statusText(status))
  {
    UnparsableIsEmptyEnvelope();
  }

  /** Missing text falls back to the reason phrase of the final code, not of the HTTP status. */
  lemma MappedTextFollowsFinalCode(code: int, status: int, statusText: int -> string)
    requires IsGoInt(code) && code != 0
    ensures MappedError(ReadEnvelope(Some(EnvelopeJson(ErrorResponse(ServiceError(code, ""))))), status, statusText)
         == ServiceError(code, statusText(code))
  {
    EnvelopeRoundTrip(ErrorResponse(ServiceError(code, "")));
  }

  /** With a real status the mapped code is never zero, and the text is empty only if the reason phrase is. */
  lemma MappedNeverBlank(envelope: ErrorResponse, status: int, statusText: int -> string)
    requires status != 0
    ensures MappedError(envelope, status, statusText).code != 0
    ensures MappedError(envelope, status, statusText).text == "" ==>
      statusText(MappedError(envelope, status, statusText).code) == ""
  {
  }

  /** mapResponseToError: decodes the envelope, closes the body, patches code and text. */
  method MapResponseToError(resp: Response, lib: Library) returns (e: ServiceError)
    modifies resp.body
    ensures resp.body.closed
    ensures e == MappedError(ReadEnvelope(lib.parseJson(resp.body.content)), resp.status, lib.statusText)
  {
    var envelope := ReadEnvelope(lib.parseJson(resp.body.content));
    resp.body.Close();
    e := envelope.error;
    if e.code == 0 {
      e := e.(code := resp.status);
    }
    if e.text == "" {
      e := e.(text := lib.statusText(e.code));
    }
  }

  // ---------------------------------------------------------------------
  // Classification of what the wrapped transport did.

  /** What RoundTrip hands back, as values: a passed response, or an error. */
  datatype Outcome = Passed(status: int, content: string) | Failed(failure: Failure)

  function Observed(r: Result<Response>): Outcome
  {
    match r
    case Ok(resp) => Passed(resp.status, resp.body.content)
    case Err(f) => Failed(f)
  }

  /** RoundTrip's verdict on a reply of the wrapped transport. */
  function Verdict(reply: WireReply, lib: Library): Outcome
  {
    match reply
    case Unreachable(failure) => Failed(Wrapped("request failed", failure))
    case Responded(status, content) =>
      if IsSuccess(status) then Passed(status, content)
      else Failed(Service(MappedError(ReadEnvelope(lib.parseJson(content)), status, lib.statusText)))
  }

  /** Exactly the 2xx responses pass, unchanged; everything else is an error. */
  lemma VerdictPassesExactly2xx(reply: WireReply, lib: Library)
    ensures Verdict(reply, lib).Passed? <==> reply.Responded? && IsSuccess(reply.status)
    ensures Verdict(reply, lib).Passed? ==>
      Verdict(reply, lib) == Passed(reply.status, reply.content)
  {
  }

  /**
   * A transport failure reads "request failed: <cause>", and since it is
   * wrapped with %w, errors.As and errors.Is see the transport's own error
   * through it.
   */
  lemma UnreachableIsWrapped(f: Failure, lib: Library)
    ensures Verdict(Unreachable(f), lib) == Failed(Wrapped("request failed", f))
    ensures Message(Verdict(Unreachable(f), lib).failure) == "request failed: " + Message(f)
    ensures ServiceCause(Verdict(Unreachable(f), lib).failure) == ServiceCause(f)
    ensures IsMissingToken(Verdict(Unreachable(f), lib).failure) == IsMissingToken(f)
  {
  }

  /** A non-2xx response is a service error that errors.As finds. */
  lemma RejectedIsServiceError(status: int, content: string, lib: Library)
    requires !IsSuccess(status)
    ensures ServiceCause(Verdict(Responded(status, content), lib).failure)
         == Some(MappedError(ReadEnvelope(lib.parseJson(content)), status, lib.statusText))
  {
  }

  // ---------------------------------------------------------------------
  // Debug dumps.

  /** The request dump as logRequest emits it: through the untagged logger. */
  function RequestRecordAsWritten(logr: Logger, id: string, dumped: WireRequest): LogRecord
  {
    logr.Record(Debug, "outbound request", [Attr("request", RequestDump(dumped))])
  }

  /** The response dump as logResponse emits it: through the untagged logger. */
  function ResponseRecordAsWritten(logr: Logger, id: string, status: int, content: string): LogRecord
  {
    logr.Record(Debug, "received response", [Attr("r", ResponseDump(status, content))])
  }

  /** The request dump through the logger tagged with the correlation id. */
  function RequestRecord(logr: Logger, id: string, dumped: WireRequest): LogRecord
  {
    logr.With(Attr("correlationID", Str(id))).Record(Debug, "outbound request", [Attr("request", RequestDump(dumped))])
  }

  /** The response dump through the logger tagged with the correlation id. */
  function ResponseRecord(logr: Logger, id: string, status: int, content: string): LogRecord
  {
    logr.With(Attr("correlationID", Str(id))).Record(Debug, "received response", [Attr("r", ResponseDump(status, content))])
  }

  predicate Tagged(r: LogRecord, id: string)
  {
    Attr("correlationID", Str(id)) in r.attrs
  }

  /**
   * As written, the dumps of two round trips with different correlation ids
   * are the same record, and neither carries its id unless the transport's
   * own logger already did: the tagged logger is built and then unused.
   */
  lemma DumpsUntaggedAsWritten(logr: Logger, id1: string, id2: string, dumped: WireRequest, status: int, content: string)
    requires id1 != id2
    requires forall a :: a in logr.attrs ==> a.key != "correlationID"
    ensures RequestRecordAsWritten(logr, id1, dumped) == RequestRecordAsWritten(logr, id2, dumped)
    ensures ResponseRecordAsWritten(logr, id1, status, content) == ResponseRecordAsWritten(logr, id2, status, content)
    ensures !Tagged(RequestRecordAsWritten(logr, id1, dumped), id1)
    ensures !Tagged(ResponseRecordAsWritten(logr, id1, status, content), id1)
  {
    var rq := RequestRecordAsWritten(logr, id1, dumped);
    var rs := ResponseRecordAsWritten(logr, id1, status, content);
    assert rq.attrs == logr.attrs + [Attr("request", RequestDump(dumped))];
    assert rs.attrs == logr.attrs + [Attr("r", ResponseDump(status, content))];
  }

  /** Both dumps of one round trip carry its correlation id, so they can be paired. */
  lemma DumpsShareCorrelationId(logr: Logger, id: string, dumped: WireRequest, status: int, content: string)
    ensures Tagged(RequestRecord(logr, id, dumped), id)
    ensures Tagged(ResponseRecord(logr, id, status, content), id)
  {
    var tag := Attr("correlationID", Str(id));
    assert RequestRecord(logr, id, dumped).attrs[|logr.attrs|] == tag;
    assert ResponseRecord(logr, id, status, content).attrs[|logr.attrs|] == tag;
  }

  /** The records a round trip adds: none unless debugging; the response dump only when a response came back. */
  function DebugRecords(debug: bool, logr: Logger, id: string, dumped: WireRequest, reply: WireReply): seq<LogRecord>
  {
    if !debug then []
    else [RequestRecord(logr, id, dumped)]
         + (if reply.Responded? then [ResponseRecord(logr, id, reply.status, reply.content)] else [])
  }

  // ---------------------------------------------------------------------
  // A whole round trip, as values.

  /** What a round trip started with settings `s` on request `w` answers, the network answering `respond`. */
  function Trip(s: Settings, w: WireRequest, n: nat, respond: (nat, RoundTripper, WireRequest) -> WireReply, lib: Library): Outcome
  {
    if s.token == "" then Failed(MissingToken)
    else Verdict(respond(n, s.wrapped, Outgoing(w, s)), lib)
  }

  /** The requests a round trip hands to the wrapped transport: none without a token, else exactly one. */
  function Sent(s: Settings, w: WireRequest): seq<(RoundTripper, WireRequest)>
  {
    if s.token == "" then [] else [(s.wrapped, Outgoing(w, s))]
  }

  /** The log records a round trip adds. */
  function TripRecords(s: Settings, logr: Logger, id: string, w: WireRequest, n: nat,
                       respond: (nat, RoundTripper, WireRequest) -> WireReply): seq<LogRecord>
  {
    if s.token == "" then []
    else DebugRecords(s.debug, logr, id, Dumped(w, s), respond(n, s.wrapped, Outgoing(w, s)))
  }

  /** Every body opened from index `from` on is closed, except the one handed back. */
  predicate Settled(bodies: seq<Body>, from: nat, r: Result<Response>)
    reads bodies
  {
    from <= |bodies| &&
    forall i :: from <= i < |bodies| ==> bodies[i].closed || (r.Ok? && r.value.body == bodies[i])
  }

  /** No token: the round trip fails with ErrMissingToken and nothing is sent or logged. */
  lemma MissingTokenSendsNothing(s: Settings, w: WireRequest, n: nat,
                                 respond: (nat, RoundTripper, WireRequest) -> WireReply, lib: Library, logr: Logger, id: string)
    requires s.token == ""
    ensures Trip(s, w, n, respond, lib) == Failed(MissingToken)
    ensures Sent(s, w) == [] && TripRecords(s, logr, id, w, n, respond) == []
  {
  }

  /**
   * With a token, exactly one request goes out, carrying the caller's
   * headers plus User-Agent, Accept and Basic auth.
   */
  lemma TokenSendsOneAuthorizedRequest(s: Settings, w: WireRequest, key: string)
    requires s.token != ""
    ensures |Sent(s, w)| == 1 && Sent(s, w)[0].0 == s.wrapped
    ensures Values(Sent(s, w)[0].1.header, "Authorization") == [BasicCredentials(s.token, "")]
    ensures Values(Sent(s, w)[0].1.header, "User-Agent") == Values(w.header, "User-Agent") + [Text(s.userAgent)]
    ensures Values(Sent(s, w)[0].1.header, "Accept") == Values(w.header, "Accept") + [Text(AcceptJson)]
    ensures key != "Authorization" && key != "User-Agent" && key != "Accept" ==>
      Values(Sent(s, w)[0].1.header, key) == Values(w.header, key)
  {
  }

  // ---------------------------------------------------------------------
  // The transport.

  class MtsTransport {
    const conf: Config
    var logr: Logger

    /** Config.GetTransport: a transport sharing `conf`, logging to slog.Default(). */
    constructor (conf: Config, defaultLogger: Logger)
      ensures this.conf == conf && logr == defaultLogger
    {
      this.conf := conf;
      logr := defaultLogger;
    }

    /** getWrappedTransport: the configured transport, else http.DefaultTransport. */
    function GetWrappedTransport(): (t: RoundTripper)
      reads conf
      ensures conf.transport.Some? ==> t == conf.transport.value
      ensures conf.transport.None? ==> t == DefaultTransport
    {
      match conf.transport
      case Some(t) => t
      case None => DefaultTransport
    }

    /** The settings a round trip started now would use. */
    function Resolved(env: Environment): Settings
      reads conf
    {
      Settings(conf.GetAuthToken(env), conf.GetUserAgent(), GetWrappedTransport(), conf.debug)
    }

    /** logRequest (corrected to log through the tagged logger). */
    method LogRequest(req: Request, id: string)
      modifies logr.handler
      ensures logr.handler.records == old(logr.handler.records) + [RequestRecord(logr, id, req.Wire())]
    {
      Log(logr.With(Attr("correlationID", Str(id))), Debug, "outbound request", [Attr("request", RequestDump(req.Wire()))]);
    }

    /** logResponse (corrected to log through the tagged logger). */
    method LogResponse(resp: Response, id: string)
      modifies logr.handler
      ensures logr.handler.records
           == old(logr.handler.records) + [ResponseRecord(logr, id, resp.status, resp.body.content)]
    {
      Log(logr.With(Attr("correlationID", Str(id))), Debug, "received response",
          [Attr("r", ResponseDump(resp.status, resp.body.content))]);
    }

    /**
     * RoundTrip. With no token it fails before touching anything. Otherwise
     * it draws one correlation id, sends exactly one request (the caller's,
     * with User-Agent and Accept appended and Basic auth set), logs the
     * debug dumps, and answers with the verdict on the reply; a response
     * body it does not hand back is closed.
     */
    method RoundTrip(req: Request, world: World, lib: Library) returns (r: Result<Response>)
      modifies req, world, logr.handler
      ensures Observed(r) == Trip(Resolved(world.env), old(req.Wire()), |old(world.sent)|, world.respond, lib)
      ensures world.sent == old(world.sent) + Sent(Resolved(world.env), old(req.Wire()))
      ensures world.issued == old(world.issued) + |Sent(Resolved(world.env), old(req.Wire()))|
      ensures req.Wire() == if Resolved(world.env).token == "" then old(req.Wire())
                            else Outgoing(old(req.Wire()), Resolved(world.env))
      ensures logr.handler.records == old(logr.handler.records)
        + TripRecords(Resolved(world.env), logr, world.uuid(old(world.issued)), old(req.Wire()),
                      |old(world.sent)|, world.respond)
      ensures |old(world.bodies)| <= |world.bodies| <= |old(world.bodies)| + 1 && world.bodies[..|old(world.bodies)|] == old(world.bodies)
      ensures Settled(world.bodies, |old(world.bodies)|, r)
      ensures r.Ok? ==> fresh(r.value.body) && !r.value.body.closed
    {
      if conf.GetAuthToken(world.env) == "" {
        return Err(MissingToken);
      }
      var s := Resolved(world.env);
      ghost var w0 := req.Wire();

      var id := world.NewUuid();
      req.AddHeader("User-Agent", Text(conf.GetUserAgent()));
      req.AddHeader("Accept", Text(AcceptJson));
      assert req.Wire() == Dumped(w0, s);

      if conf.debug {
        LogRequest(req, id);
      }

      req.SetBasicAuth(conf.GetAuthToken(world.env), "");
      assert req.Wire() == Outgoing(w0, s);
      r := Forward(req, id, world, lib);
    }

    /**
     * The second half of RoundTrip, once the request is ready: hand it to
     * the wrapped transport, dump the response when debugging, and keep
     * only a 2xx response, closing the body of any other.
     */
    method Forward(req: Request, id: string, world: World, lib: Library) returns (r: Result<Response>)
      modifies world, logr.handler
      ensures world.sent == old(world.sent) + [(GetWrappedTransport(), req.Wire())]
      ensures world.issued == old(world.issued)
      ensures var reply := world.respond(|old(world.sent)|, GetWrappedTransport(), req.Wire());
        logr.handler.records == old(logr.handler.records)
          + (if conf.debug && reply.Responded? then [ResponseRecord(logr, id, reply.status, reply.content)] else [])
      ensures Observed(r) == Verdict(world.respond(|old(world.sent)|, GetWrappedTransport(), req.Wire()), lib)
      ensures |old(world.bodies)| <= |world.bodies| <= |old(world.bodies)| + 1 && world.bodies[..|old(world.bodies)|] == old(world.bodies)
      ensures Settled(world.bodies, |old(world.bodies)|, r)
      ensures r.Ok? ==> fresh(r.value.body) && !r.value.body.closed
    {
      var sent := world.Transmit(GetWrappedTransport(), req.Wire());
      if sent.Err? {
        return Err(Wrapped("request failed", sent.error));
      }
      var resp := sent.value;

      if conf.debug {
        LogResponse(resp, id);
      }

      if !IsSuccess(resp.status) {
        var e := MapResponseToError(resp, lib);
        return Err(Service(e));
      }
      return Ok(resp);
    }
  }
}
