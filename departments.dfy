/**
 * department.go: departments, the create request (a url-form body), and the
 * department client, a wrapper around the shared client whose operations
 * are one dispatcher call each followed by unwrapping the envelope.
 */
module Departments {
  import opened Options
  import opened Codec
  import opened Errors
  import opened Wire
  import opened Transport
  import opened Clients
  import opened Dispatch

  /** A department as the service describes one. */
  datatype Department = Department(id: string, name: string)

  /** The create request: only a name, sent even when empty (no `omitempty`). */
  datatype DepartmentCreateRequest = DepartmentCreateRequest(name: string)

  /** The body of a List answer: {"departments": [...]}. */
  datatype DepartmentListResponse = DepartmentListResponse(departments: seq<Department>)

  /** The body of a Create or Delete answer: {"department": {...}}. */
  datatype DepartmentResponse = DepartmentResponse(department: Department)

  function DepartmentOf(r: DepartmentResponse): Department
  {
    r.department
  }

  function DepartmentsOf(r: DepartmentListResponse): seq<Department>
  {
    r.departments
  }

  /** The fields go-querystring takes from a create request. */
  function CreateForm(req: DepartmentCreateRequest): seq<FormField>
  {
    [("name", FText(req.name))]
  }

  /** The form always holds the name, and nothing else. */
  lemma CreateFormHoldsName(req: DepartmentCreateRequest, k: string)
    ensures Lookup(CreateForm(req), "name") == Some(FText(req.name))
    ensures k != "name" ==> Lookup(CreateForm(req), k) == None
  {
    assert CreateForm(req)[..0] == [];
  }

  datatype Operation = Create | List | Delete(id: string)

  /** The method and path of each department operation. */
  function Route(op: Operation): (Method, string)
  {
    match op
    case Create => (POST, "/departments")
    case List => (GET, "/departments")
    case Delete(id) => (DELETE, "/departments/" + id)
  }

  /** The route determines the operation. */
  lemma RouteDeterminesOperation(a: Operation, b: Operation)
    requires Route(a) == Route(b)
    ensures a == b
  {
    if a.Delete? && b.Delete? {
      var prefix := "/departments/";
      assert a.id == (prefix + a.id)[|prefix|..] == (prefix + b.id)[|prefix|..] == b.id;
    }
  }

  /** departmentClient.Create: POST /departments with the url-form of the request. */
  method CreateDepartment(d: DepartmentClient, req: DepartmentCreateRequest, world: World, lib: Library,
                          decode: string -> Decoded<DepartmentResponse>) returns (r: Result<Department>)
    modifies world, d.client.httpClient.transport.logr.handler
    ensures r == Dispatched(d.client.httpClient.transport.Resolved(world.env), d.client.conf.GetBaseURL() + Route(Create).1,
                            Route(Create).0, FormBody(CreateForm(req)), |old(world.sent)|, world.respond, lib, decode).Map(DepartmentOf)
    ensures Performed(d.client, Route(Create).0, Route(Create).1, FormBody(CreateForm(req)), world, lib)
  {
    var resp := HttpPost(d.client, "/departments", FormBody(CreateForm(req)), world, lib, decode);
    if resp.Err? {
      return Err(resp.error);
    }
    return Ok(resp.value.department);
  }

  /** departmentClient.List: GET /departments. */
  method ListDepartments(d: DepartmentClient, world: World, lib: Library,
                         decode: string -> Decoded<DepartmentListResponse>) returns (r: Result<seq<Department>>)
    modifies world, d.client.httpClient.transport.logr.handler
    ensures r == Dispatched(d.client.httpClient.transport.Resolved(world.env), d.client.conf.GetBaseURL() + Route(List).1,
                            Route(List).0, NoBody, |old(world.sent)|, world.respond, lib, decode).Map(DepartmentsOf)
    ensures Performed(d.client, Route(List).0, Route(List).1, NoBody, world, lib)
  {
    var resp := HttpGet(d.client, "/departments", world, lib, decode);
    if resp.Err? {
      return Err(resp.error);
    }
    return Ok(resp.value.departments);
  }

  /** departmentClient.Delete: DELETE /departments/<id>. */
  method DeleteDepartment(d: DepartmentClient, id: string, world: World, lib: Library,
                          decode: string -> Decoded<DepartmentResponse>) returns (r: Result<Department>)
    modifies world, d.client.httpClient.transport.logr.handler
    ensures r == Dispatched(d.client.httpClient.transport.Resolved(world.env), d.client.conf.GetBaseURL() + Route(Delete(id)).1,
                            Route(Delete(id)).0, NoBody, |old(world.sent)|, world.respond, lib, decode).Map(DepartmentOf)
    ensures Performed(d.client, Route(Delete(id)).0, Route(Delete(id)).1, NoBody, world, lib)
  {
    var resp := HttpDelete(d.client, "/departments/" + id, world, lib, decode);
    if resp.Err? {
      return Err(resp.error);
    }
    return Ok(resp.value.department);
  }
}
