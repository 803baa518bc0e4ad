/**
 * The net/http boundary the library is written against: request methods,
 * header lists, the request object the transport mutates, response bodies
 * that must be closed, and the outside world (environment, network, uuid
 * source, library codecs) as oracles.
 */
module Wire {
  import opened Options
  import opened Codec
  import opened Errors

  /** The four verbs the dispatcher uses. */
  datatype Method = GET | POST | PUT | DELETE {

    /** The request-line spelling (http.MethodGet, ...). */
    function Name(): string
    {
      match this
      case GET => "GET"
      case POST => "POST"
      case PUT => "PUT"
      case DELETE => "DELETE"
    }

    /** The Op that http.Client.Do puts in a *url.Error: first letter upper-case only. */
    function Op(): string
    {
      match this
      case GET => "Get"
      case POST => "Post"
      case PUT => "Put"
      case DELETE => "Delete"
    }
  }

  /** An http.RoundTripper the authenticating transport can wrap. */
  datatype RoundTripper = DefaultTransport | CustomTransport(name: string)

  /**
   * A header value. Basic credentials stay a pair: their base64 spelling
   * is library code.
   */
  datatype HeaderValue = Text(s: string) | BasicCredentials(username: string, password: string)

  /** http.Header: each (canonical) key holds its values in insertion order. */
  type Header = map<string, seq<HeaderValue>>

  /** Header.Values: the values held for a key, none when it is absent. */
  function Values(h: Header, key: string): seq<HeaderValue>
  {
    if key in h then h[key] else []
  }

  /** Header.Add: the value goes after those the key holds; other keys keep theirs. */
  function AddValue(h: Header, key: string, v: HeaderValue): (r: Header)
    ensures Values(r, key) == Values(h, key) + [v]
    ensures forall k :: k != key ==> Values(r, k) == Values(h, k)
  {
    h[key := Values(h, key) + [v]]
  }

  /** Header.Set: the key holds exactly this value afterwards; other keys keep theirs. */
  function SetValue(h: Header, key: string, v: HeaderValue): (r: Header)
    ensures Values(r, key) == [v]
    ensures forall k :: k != key ==> Values(r, k) == Values(h, k)
  {
    h[key := [v]]
  }

  /** What a request looks like on the wire at one moment. */
  datatype WireRequest = WireRequest(verb: Method, url: string, header: Header, payload: Option<string>)

  /** An *http.Request: only its header is changed after it is built. */
  class Request {
    const verb: Method
    const url: string
    const payload: Option<string>
    var header: Header

    /** http.NewRequest: a request with an empty header. */
    constructor (verb: Method, url: string, payload: Option<string>)
      ensures this.verb == verb && this.url == url && this.payload == payload
      ensures header == map[]
    {
      this.verb := verb;
      this.url := url;
      this.payload := payload;
      header := map[];
    }

    function Wire(): WireRequest
      reads this
    {
      WireRequest(verb, url, header, payload)
    }

    /** req.Header.Add(key, v). */
    method AddHeader(key: string, v: HeaderValue)
      modifies this
      ensures header == AddValue(old(header), key, v)
    {
      header := AddValue(header, key, v);
    }

    /** req.SetBasicAuth(username, password): replaces any Authorization value. */
    method SetBasicAuth(username: string, password: string)
      modifies this
      ensures header == SetValue(old(header), "Authorization", BasicCredentials(username, password))
    {
      header := SetValue(header, "Authorization", BasicCredentials(username, password));
    }
  }

  /** A response body: its bytes and whether it has been closed. */
  class Body {
    const content: string
    var closed: bool

    constructor (content: string)
      ensures this.content == content && !closed
    {
      this.content := content;
      closed := false;
    }

    method Close()
      modifies this
      ensures closed
    {
      closed := true;
    }
  }

  /** An *http.Response: the status code and the body to be closed. */
  datatype Response = Response(status: int, body: Body)

  /**
   * What a wrapped transport answers to one request: a response, or the
   * error its RoundTrip returned (any error value, since Config.Transport
   * may be a custom RoundTripper).
   */
  datatype WireReply = Responded(status: int, content: string) | Unreachable(failure: Failure)

  /** The process environment. */
  type Environment = map<string, string>

  /** os.Getenv: the empty string for an unset variable. */
  function Getenv(env: Environment, key: string): string
  {
    if key in env then env[key] else ""
  }

  /** Library functions whose workings are not part of this model. */
  datatype Library = Library(
    statusText: int -> string,                   // http.StatusText
    parseJson: string -> Option<Json>,           // encoding/json syntax, None when malformed or empty
    encodeForm: seq<FormField> -> Encoded,       // query.Values(...).Encode()
    encodeJson: Json -> Encoded,                 // json.NewEncoder(buf).Encode(...)
    requestError: (Method, string) -> Option<string>  // the error of http.NewRequest, if any
  )

  /** The outside world at one moment, as values. */
  datatype WorldView = WorldView(
    env: Environment,
    respond: (nat, RoundTripper, WireRequest) -> WireReply,
    uuid: nat -> string,
    sent: nat,
    issued: nat)

  /**
   * The outside world: the environment, the network behind every wrapped
   * transport (its answer may depend on how many requests came before),
   * and the uuid source.
   */
  class World {
    const env: Environment
    const respond: (nat, RoundTripper, WireRequest) -> WireReply
    const uuid: nat -> string
    var sent: seq<(RoundTripper, WireRequest)>
    var issued: nat
    ghost var bodies: seq<Body>

    constructor (env: Environment, respond: (nat, RoundTripper, WireRequest) -> WireReply, uuid: nat -> string)
      ensures this.env == env && this.respond == respond && this.uuid == uuid
      ensures sent == [] && issued == 0 && bodies == []
    {
      this.env := env;
      this.respond := respond;
      this.uuid := uuid;
      sent, issued, bodies := [], 0, [];
    }

    function View(): WorldView
      reads this
    {
      WorldView(env, respond, uuid, |sent|, issued)
    }

    /** uuid.New().String(). */
    method NewUuid() returns (id: string)
      modifies this
      ensures id == uuid(old(issued)) && issued == old(issued) + 1
      ensures sent == old(sent) && bodies == old(bodies)
    {
      id := uuid(issued);
      issued := issued + 1;
    }

    /** RoundTrip of a wrapped transport: sends the request, answers with a fresh open body or an error. */
    method Transmit(t: RoundTripper, w: WireRequest) returns (r: Result<Response>)
      modifies this
      ensures sent == old(sent) + [(t, w)] && issued == old(issued)
      ensures var reply := respond(|old(sent)|, t, w);
        && (reply.Unreachable? ==> r == Err(reply.failure) && bodies == old(bodies))
        && (reply.Responded? ==>
              && r.Ok? && fresh(r.value.body) && !r.value.body.closed
              && r.value.status == reply.status && r.value.body.content == reply.content
              && bodies == old(bodies) + [r.value.body])
    {
      var reply := respond(|sent|, t, w);
      sent := sent + [(t, w)];
      match reply
      case Unreachable(failure) =>
        r := Err(failure);
      case Responded(status, content) =>
        var body := new Body(content);
        bodies := bodies + [body];
        r := Ok(Response(status, body));
    }
  }
}
