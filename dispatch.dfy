/**
 * The request builder and dispatcher of http.go: newHTTPRequest chooses the
 * payload encoding and Content-Type from the kind of body, httpDo sends the
 * request to the base URL plus the path and decodes the response, and the
 * verb wrappers fix the method and whether a body is passed.
 */
module Dispatch {
  import opened Options
  import opened Codec
  import opened Errors
  import opened Wire
  import opened Logging
  import opened Configs
  import opened Transport
  import opened Clients

  /** The body handed to httpDo: nil, a formRequest, or any other value (JSON). */
  datatype Payload = NoBody | FormBody(fields: seq<FormField>) | JsonBody(value: Json)

  const FormContentType := "application/x-www-form-urlencoded"
  const JsonContentType := "application/json"

  /** The Content-Type newHTTPRequest adds: empty for a nil body. */
  function ContentType(p: Payload): string
  {
    match p
    case NoBody => ""
    case FormBody(_) => FormContentType
    case JsonBody(_) => JsonContentType
  }

  /** What the encoder of a body produced; None for a nil body, which is not encoded. */
  function Encoding(lib: Library, p: Payload): Option<Encoded>
  {
    match p
    case NoBody => None
    case FormBody(fields) => Some(lib.encodeForm(fields))
    case JsonBody(value) => Some(lib.encodeJson(value))
  }

  /** The context newHTTPRequest puts in front of an encoder error. */
  function EncodeContext(p: Payload): string
  {
    if p.FormBody? then "could not marshal url-form-encoded" else "could not marshal json"
  }

  /** newHTTPRequest, as values: the request it returns, or its error. */
  function Built(lib: Library, m: Method, url: string, p: Payload): Result<WireRequest>
  {
    var encoded := Encoding(lib, p);
    if encoded.Some? && encoded.value.EncodeError? then
      Err(Wrapped(EncodeContext(p), Opaque(encoded.value.message)))
    else match lib.requestError(m, url)
      case Some(message) => Err(Wrapped("could not build request", Opaque(message)))
      case None =>
        var payload := if encoded.Some? then Some(encoded.value.data) else None;
        Ok(WireRequest(m, url, map["Content-Type" := [Text(ContentType(p))]], payload))
  }

  /**
   * A built request goes to the given URL with the given method, carries
   * exactly one header, Content-Type, chosen by the kind of body, and has a
   * payload exactly when a body was given.
   */
  lemma BuiltRequestShape(lib: Library, m: Method, url: string, p: Payload, key: string)
    requires Built(lib, m, url, p).Ok?
    ensures Built(lib, m, url, p).value.verb == m && Built(lib, m, url, p).value.url == url
    ensures Values(Built(lib, m, url, p).value.header, "Content-Type") == [Text(ContentType(p))]
    ensures key != "Content-Type" ==> Values(Built(lib, m, url, p).value.header, key) == []
    ensures Built(lib, m, url, p).value.payload.Some? <==> !p.NoBody?
    ensures p.FormBody? ==> Built(lib, m, url, p).value.payload == Some(lib.encodeForm(p.fields).data)
    ensures p.JsonBody? ==> Built(lib, m, url, p).value.payload == Some(lib.encodeJson(p.value).data)
  {
  }

  /** A nil body builds a request with no payload and an empty Content-Type value. */
  lemma NoBodyHasEmptyContentType(lib: Library, m: Method, url: string)
    requires lib.requestError(m, url).None?
    ensures Built(lib, m, url, NoBody) == Ok(WireRequest(m, url, map["Content-Type" := [Text("")]], None))
  {
  }

  /** An encoder failure is reported, with its context, before the request is built. */
  lemma EncodeFailureBuildsNothing(lib: Library, m: Method, url: string, p: Payload)
    requires Encoding(lib, p).Some? && Encoding(lib, p).value.EncodeError?
    ensures Built(lib, m, url, p).Err?
    ensures Message(Built(lib, m, url, p).error) == EncodeContext(p) + ": " + Encoding(lib, p).value.message
  {
  }

  /** newHTTPRequest: encodes the body into a buffer, builds the request, adds Content-Type. */
  method NewHTTPRequest(lib: Library, m: Method, url: string, p: Payload) returns (r: Result<Request>)
    ensures r.Ok? <==> Built(lib, m, url, p).Ok?
    ensures r.Ok? ==> fresh(r.value) && r.value.Wire() == Built(lib, m, url, p).value
    ensures r.Err? ==> r.error == Built(lib, m, url, p).error
  {
    var payload: Option<string> := None;
    var contentType := "";
    if !p.NoBody? {
      var encoded: Encoded;
      if p.FormBody? {
        contentType := FormContentType;
        encoded := lib.encodeForm(p.fields);
        if encoded.EncodeError? {
          return Err(Wrapped("could not marshal url-form-encoded", Opaque(encoded.message)));
        }
      } else {
        contentType := JsonContentType;
        encoded := lib.encodeJson(p.value);
        if encoded.EncodeError? {
          return Err(Wrapped("could not marshal json", Opaque(encoded.message)));
        }
      }
      payload := Some(encoded.data);
    }
    var failure := lib.requestError(m, url);
    if failure.Some? {
      return Err(Wrapped("could not build request", Opaque(failure.value)));
    }
    var req := new Request(m, url, payload);
    req.AddHeader("Content-Type", Text(contentType));
    assert [] + [Text(contentType)] == [Text(contentType)];
    assert req.header == map["Content-Type" := [Text(ContentType(p))]];
    return Ok(req);
  }

  /** mapResponseBody, as values: the decoded value, or the decoder's error. */
  function BodyValue<T>(decode: string -> Decoded<T>, content: string): Result<T>
  {
    match decode(content)
    case Decoded(v) => Ok(v)
    case Malformed(message) => Err(Opaque(message))
  }

  /** mapResponseBody: decodes the body into a T and closes it, whatever the decoder said. */
  method MapResponseBody<T>(resp: Response, decode: string -> Decoded<T>) returns (r: Result<T>)
    modifies resp.body
    ensures resp.body.closed
    ensures r == BodyValue(decode, resp.body.content)
  {
    r := BodyValue(decode, resp.body.content);
    resp.body.Close();
  }

  /**
   * httpDo, as values: the build error; else the transport's failure as a
   * *url.Error; else the decoded body.
   */
  function Dispatched<T>(s: Settings, url: string, m: Method, p: Payload, n: nat,
                         respond: (nat, RoundTripper, WireRequest) -> WireReply, lib: Library,
                         decode: string -> Decoded<T>): Result<T>
  {
    match Built(lib, m, url, p)
    case Err(e) => Err(e)
    case Ok(w) =>
      match AsUrlError(Trip(s, w, n, respond, lib), m, url)
      case Failed(f) => Err(f)
      case Passed(_, content) => BodyValue(decode, content)
  }

  /** The requests httpDo hands to the wrapped transport. */
  function DispatchSent(s: Settings, url: string, m: Method, p: Payload, lib: Library): seq<(RoundTripper, WireRequest)>
  {
    match Built(lib, m, url, p)
    case Err(_) => []
    case Ok(w) => Sent(s, w)
  }

  /** The log records httpDo adds through the transport. */
  function DispatchRecords(s: Settings, url: string, m: Method, p: Payload, lib: Library, logr: Logger, id: string,
                           n: nat, respond: (nat, RoundTripper, WireRequest) -> WireReply): seq<LogRecord>
  {
    match Built(lib, m, url, p)
    case Err(_) => []
    case Ok(w) => TripRecords(s, logr, id, w, n, respond)
  }

  /**
   * The effects of one httpDo on the outside world: the requests sent, the
   * ids drawn, the records logged, and every body opened is closed again.
   */
  twostate predicate Performed(c: Client, m: Method, path: string, p: Payload, world: World, lib: Library)
    reads c.conf, c.httpClient.transport, c.httpClient.transport.conf, c.httpClient.transport.logr.handler, world, world.bodies
  {
    var t := c.httpClient.transport;
    var s := t.Resolved(world.env);
    var url := c.conf.GetBaseURL() + path;
    && world.sent == old(world.sent) + DispatchSent(s, url, m, p, lib)
    && world.issued == old(world.issued) + |DispatchSent(s, url, m, p, lib)|
    && t.logr.handler.records == old(t.logr.handler.records)
         + DispatchRecords(s, url, m, p, lib, t.logr, world.uuid(old(world.issued)), |old(world.sent)|, world.respond)
    && |old(world.bodies)| <= |world.bodies|
    && world.bodies[..|old(world.bodies)|] == old(world.bodies)
    && forall i :: |old(world.bodies)| <= i < |world.bodies| ==> world.bodies[i].closed
  }

  /** httpDo: build against GetBaseURL() + path, send through the client, decode the body. */
  method HttpDo<T>(c: Client, m: Method, path: string, p: Payload, world: World, lib: Library,
                   decode: string -> Decoded<T>) returns (r: Result<T>)
    modifies world, c.httpClient.transport.logr.handler
    ensures r == Dispatched(c.httpClient.transport.Resolved(world.env), c.conf.GetBaseURL() + path, m, p,
                            |old(world.sent)|, world.respond, lib, decode)
    ensures Performed(c, m, path, p, world, lib)
  {
    var url := c.conf.GetBaseURL() + path;
    var built := NewHTTPRequest(lib, m, url, p);
    if built.Err? {
      return Err(built.error);
    }
    r := Exchange(c, built.value, world, lib, decode);
  }

  /** The second half of httpDo, once the request is built: send it and decode the answer. */
  method Exchange<T>(c: Client, req: Request, world: World, lib: Library, decode: string -> Decoded<T>)
    returns (r: Result<T>)
    modifies req, world, c.httpClient.transport.logr.handler
    ensures var s := c.httpClient.transport.Resolved(world.env);
      r == match AsUrlError(Trip(s, old(req.Wire()), |old(world.sent)|, world.respond, lib), req.verb, req.url)
           case Failed(f) => Err(f)
           case Passed(_, content) => BodyValue(decode, content)
    ensures world.sent == old(world.sent) + Sent(c.httpClient.transport.Resolved(world.env), old(req.Wire()))
    ensures world.issued == old(world.issued) + |Sent(c.httpClient.transport.Resolved(world.env), old(req.Wire()))|
    ensures c.httpClient.transport.logr.handler.records == old(c.httpClient.transport.logr.handler.records)
      + TripRecords(c.httpClient.transport.Resolved(world.env), c.httpClient.transport.logr, world.uuid(old(world.issued)),
                    old(req.Wire()), |old(world.sent)|, world.respond)
    ensures |old(world.bodies)| <= |world.bodies| && world.bodies[..|old(world.bodies)|] == old(world.bodies)
    ensures forall i :: |old(world.bodies)| <= i < |world.bodies| ==> world.bodies[i].closed
  {
    var sent := c.httpClient.Do(req, world, lib);
    if sent.Err? {
      return Err(sent.error);
    }
    r := MapResponseBody(sent.value, decode);
  }

  /** httpGet: GET with no body. */
  method HttpGet<T>(c: Client, path: string, world: World, lib: Library, decode: string -> Decoded<T>) returns (r: Result<T>)
    modifies world, c.httpClient.transport.logr.handler
    ensures r == Dispatched(c.httpClient.transport.Resolved(world.env), c.conf.GetBaseURL() + path, GET, NoBody,
                            |old(world.sent)|, world.respond, lib, decode)
    ensures Performed(c, GET, path, NoBody, world, lib)
  {
    r := HttpDo(c, GET, path, NoBody, world, lib, decode);
  }

  /** httpPut: PUT with the caller's body. */
  method HttpPut<T>(c: Client, path: string, body: Payload, world: World, lib: Library, decode: string -> Decoded<T>)
    returns (r: Result<T>)
    modifies world, c.httpClient.transport.logr.handler
    ensures r == Dispatched(c.httpClient.transport.Resolved(world.env), c.conf.GetBaseURL() + path, PUT, body,
                            |old(world.sent)|, world.respond, lib, decode)
    ensures Performed(c, PUT, path, body, world, lib)
  {
    r := HttpDo(c, PUT, path, body, world, lib, decode);
  }

  /** httpPost: POST with the caller's body. */
  method HttpPost<T>(c: Client, path: string, body: Payload, world: World, lib: Library, decode: string -> Decoded<T>)
    returns (r: Result<T>)
    modifies world, c.httpClient.transport.logr.handler
    ensures r == Dispatched(c.httpClient.transport.Resolved(world.env), c.conf.GetBaseURL() + path, POST, body,
                            |old(world.sent)|, world.respond, lib, decode)
    ensures Performed(c, POST, path, body, world, lib)
  {
    r := HttpDo(c, POST, path, body, world, lib, decode);
  }

  /** httpDelete: DELETE with no body. */
  method HttpDelete<T>(c: Client, path: string, world: World, lib: Library, decode: string -> Decoded<T>) returns (r: Result<T>)
    modifies world, c.httpClient.transport.logr.handler
    ensures r == Dispatched(c.httpClient.transport.Resolved(world.env), c.conf.GetBaseURL() + path, DELETE, NoBody,
                            |old(world.sent)|, world.respond, lib, decode)
    ensures Performed(c, DELETE, path, NoBody, world, lib)
  {
    r := HttpDo(c, DELETE, path, NoBody, world, lib, decode);
  }

  // ---------------------------------------------------------------------
  // What a caller of httpDo sees.

  /** No token: the caller gets ErrMissingToken inside a *url.Error, and nothing is sent. */
  lemma MissingTokenReachesCaller<T>(s: Settings, url: string, m: Method, p: Payload, n: nat,
                                     respond: (nat, RoundTripper, WireRequest) -> WireReply, lib: Library,
                                     decode: string -> Decoded<T>)
    requires s.token == "" && Built(lib, m, url, p).Ok?
    ensures Dispatched(s, url, m, p, n, respond, lib, decode) == Err(UrlError(m.Op(), url, MissingToken))
    ensures IsMissingToken(Dispatched(s, url, m, p, n, respond, lib, decode).error)
    ensures DispatchSent(s, url, m, p, lib) == []
  {
  }

  /** A non-2xx answer reaches the caller as the mapped service error, found by errors.As. */
  lemma ServiceErrorReachesCaller<T>(s: Settings, url: string, m: Method, p: Payload, n: nat,
                                     respond: (nat, RoundTripper, WireRequest) -> WireReply, lib: Library,
                                     decode: string -> Decoded<T>)
    requires s.token != "" && Built(lib, m, url, p).Ok?
    requires var reply := respond(n, s.wrapped, Outgoing(Built(lib, m, url, p).value, s));
      reply.Responded? && !IsSuccess(reply.status)
    ensures var reply := respond(n, s.wrapped, Outgoing(Built(lib, m, url, p).value, s));
      && Dispatched(s, url, m, p, n, respond, lib, decode).Err?
      && ServiceCause(Dispatched(s, url, m, p, n, respond, lib, decode).error)
         == Some(MappedError(ReadEnvelope(lib.parseJson(reply.content)), reply.status, lib.statusText))
  {
  }

  /** A 2xx answer reaches the caller as whatever the decoder makes of its body. */
  lemma SuccessDecodesBody<T>(s: Settings, url: string, m: Method, p: Payload, n: nat,
                              respond: (nat, RoundTripper, WireRequest) -> WireReply, lib: Library,
                              decode: string -> Decoded<T>)
    requires s.token != "" && Built(lib, m, url, p).Ok?
    requires var reply := respond(n, s.wrapped, Outgoing(Built(lib, m, url, p).value, s));
      reply.Responded? && IsSuccess(reply.status)
    ensures var reply := respond(n, s.wrapped, Outgoing(Built(lib, m, url, p).value, s));
      Dispatched(s, url, m, p, n, respond, lib, decode) == BodyValue(decode, reply.content)
  {
  }

  /** A build error reaches the caller unchanged, and nothing is sent. */
  lemma BuildErrorReachesCaller<T>(s: Settings, url: string, m: Method, p: Payload, n: nat,
                                   respond: (nat, RoundTripper, WireRequest) -> WireReply, lib: Library,
                                   decode: string -> Decoded<T>)
    requires Built(lib, m, url, p).Err?
    ensures Dispatched(s, url, m, p, n, respond, lib, decode) == Err(Built(lib, m, url, p).error)
    ensures DispatchSent(s, url, m, p, lib) == []
  {
  }
}
