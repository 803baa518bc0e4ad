/**
 * The client of client.go: newClient wires one Config into the client and
 * its transport by reference, and the employee and department sub-clients
 * are views of that same client. http.Client is modelled only as far as
 * the library relies on it: Do runs the transport and reports a failure
 * as a *url.Error.
 */
module Clients {
  import opened Options
  import opened Errors
  import opened Wire
  import opened Logging
  import opened Configs
  import opened Transport

  /** http.Client.Do's view of a round trip: a failure is relabelled as `<Op> "<url>": <cause>`. */
  function AsUrlError(o: Outcome, m: Method, url: string): Outcome
  {
    match o
    case Passed(status, content) => Passed(status, content)
    case Failed(f) => Failed(UrlError(m.Op(), url, f))
  }

  /** errors.Is and errors.As still see through the *url.Error. */
  lemma UrlErrorKeepsCause(f: Failure, m: Method, url: string)
    ensures AsUrlError(Failed(f), m, url).failure.cause == f
    ensures ServiceCause(AsUrlError(Failed(f), m, url).failure) == ServiceCause(f)
    ensures IsMissingToken(AsUrlError(Failed(f), m, url).failure) == IsMissingToken(f)
    ensures Message(AsUrlError(Failed(f), m, url).failure) == m.Op() + " \"" + url + "\": " + Message(f)
  {
  }

  /** An http.Client whose Transport is the authenticating transport. */
  class HttpClient {
    const transport: MtsTransport

    constructor (transport: MtsTransport)
      ensures this.transport == transport
    {
      this.transport := transport;
    }

    /** Do: one round trip through the transport; its failure comes back wrapped in a *url.Error. */
    method Do(req: Request, world: World, lib: Library) returns (r: Result<Response>)
      modifies req, world, transport.logr.handler
      ensures Observed(r) == AsUrlError(Trip(transport.Resolved(world.env), old(req.Wire()), |old(world.sent)|, world.respond, lib),
                                        req.verb, req.url)
      ensures world.sent == old(world.sent) + Sent(transport.Resolved(world.env), old(req.Wire()))
      ensures world.issued == old(world.issued) + |Sent(transport.Resolved(world.env), old(req.Wire()))|
      ensures transport.logr.handler.records == old(transport.logr.handler.records)
        + TripRecords(transport.Resolved(world.env), transport.logr, world.uuid(old(world.issued)), old(req.Wire()),
                      |old(world.sent)|, world.respond)
      ensures |old(world.bodies)| <= |world.bodies| <= |old(world.bodies)| + 1
      ensures world.bodies[..|old(world.bodies)|] == old(world.bodies)
      ensures Settled(world.bodies, |old(world.bodies)|, r)
      ensures r.Ok? ==> fresh(r.value.body) && !r.value.body.closed
    {
      r := transport.RoundTrip(req, world, lib);
      if r.Err? {
        r := Err(UrlError(req.verb.Op(), req.url, r.error));
      }
    }
  }

  /** client: the Config, the http.Client over the transport, the logger and the two sub-clients. */
  class Client {
    const conf: Config
    const httpClient: HttpClient
    const logr: Logger
    var employees: Client?
    var departments: DepartmentClient?

    /** The sub-clients are this very client, so they share its Config and its http.Client. */
    ghost predicate Valid()
      reads this, departments
    {
      && employees == this
      && departments != null && departments.client == this
      && httpClient.transport.conf == conf
    }

    /**
     * newClient: the logger GetLogger builds (`stderr` is the default text
     * handler) in group "gomts"; a transport over the same Config, whose
     * logger is replaced by the "transport" group of that logger
     * (`defaultLogger` is slog.Default(), the one GetTransport starts with).
     */
    constructor (conf: Config, stderr: Handler, defaultLogger: Logger)
      ensures this.conf == conf && Valid()
      ensures logr == conf.GetLogger(stderr).WithGroup("gomts")
      ensures httpClient.transport.logr == logr.WithGroup("transport")
      ensures fresh(httpClient) && fresh(httpClient.transport) && fresh(departments)
    {
      var l := conf.GetLogger(stderr).WithGroup("gomts");
      var transport := new MtsTransport(conf, defaultLogger);
      transport.logr := l.WithGroup("transport");
      this.conf := conf;
      httpClient := new HttpClient(transport);
      logr := l;
      new;
      employees := this;
      departments := new DepartmentClient(this);
    }

    /** Employees: the client itself, seen as an EmployeeClient. */
    function Employees(): (e: Client?)
      reads this, departments
      ensures Valid() ==> e == this
    {
      employees
    }

    /** Departments: the departmentClient wrapping this client. */
    function Departments(): (d: DepartmentClient?)
      reads this, departments
      ensures Valid() ==> d != null && d.client == this
    {
      departments
    }
  }

  /** departmentClient: a wrapper around the client. */
  class DepartmentClient {
    const client: Client

    constructor (client: Client)
      ensures this.client == client
    {
      this.client := client;
    }
  }

  /**
   * A Config is shared, not copied: both sub-clients and the transport read
   * the caller's Config, so a later change to it shows in every one of them.
   */
  lemma SubClientsShareConfig(c: Client)
    requires c.Valid()
    ensures c.Employees().conf == c.conf
    ensures c.Departments().client.conf == c.conf
    ensures c.Departments().client.httpClient == c.Employees().httpClient
    ensures c.httpClient.transport.conf == c.conf
  {
  }
}
