/**
 * employee.go: the employee records, the two request bodies with their
 * field-inclusion rules (a url-form for Create, JSON for Update), and the
 * employee client, whose every operation is one dispatcher call on a fixed
 * route followed by unwrapping the "employee" or "employees" envelope.
 */
module Employees {
  import opened Options
  import opened Codec
  import opened Errors
  import opened Wire
  import opened Transport
  import opened Clients
  import opened Dispatch

  /** An employee as the service describes one. */
  datatype Employee = Employee(
    id: string,
    name: string,
    title: string,
    primaryDepartment: string,
    primaryDepartmentID: string,
    currentDepartment: string,
    currentDepartmentID: string,
    status: string,
    customEmployeeID: string,
    pin: string,
    cardNumber: string,
    cardQRCode: string,
    customFields: map<string, string>)

  /** The body of a List answer: {"employees": [...]}. */
  datatype EmployeeListResponse = EmployeeListResponse(employees: seq<Employee>)

  /** The body of a Create, Get, Update or Delete answer: {"employee": {...}}. */
  datatype EmployeeResponse = EmployeeResponse(employee: Employee)

  function EmployeeOf(r: EmployeeResponse): Employee
  {
    r.employee
  }

  function EmployeesOf(r: EmployeeListResponse): seq<Employee>
  {
    r.employees
  }

  // ---------------------------------------------------------------------
  // EmployeeCreateRequest: a url-form body.

  /** The fields of a create request; the hourly rate (a float) is not modelled. */
  datatype EmployeeCreateRequest = EmployeeCreateRequest(
    name: string,
    departmentID: string,
    departmentName: string,
    customEmployeeID: string,
    title: string,
    pin: string,
    customFields: map<string, string>)

  /** An optional text as go-querystring's `omitempty` treats it. */
  function NonEmpty(value: string): Option<FormValue>
  {
    if value == "" then None else Some(FText(value))
  }

  function NonEmptyMap(value: map<string, string>): Option<FormValue>
  {
    if |value| == 0 then None else Some(FMap(value))
  }

  /** An `omitempty` text field of the form: written only when not empty. */
  function TextField(key: string, value: string): seq<FormField>
  {
    Member(key, NonEmpty(value))
  }

  /** An `omitempty` map field of the form: written only when the map has entries. */
  function MapField(key: string, value: map<string, string>): seq<FormField>
  {
    Member(key, NonEmptyMap(value))
  }

  /**
   * The fields go-querystring takes from a create request, in declaration
   * order: "name" always, every other field only when it is not empty.
   */
  function CreateForm(req: EmployeeCreateRequest): seq<FormField>
  {
    [("name", FText(req.name))]
      + TextField("department_id", req.departmentID)
      + TextField("department_name", req.departmentName)
      + TextField("custom_employee_id", req.customEmployeeID)
      + TextField("title", req.title)
      + TextField("pin", req.pin)
      + MapField("custom_fields", req.customFields)
  }

  /** The text a form holds for a key, empty when the key is missing. */
  function FormText(fields: seq<FormField>, key: string): string
  {
    match Lookup<FormValue>(fields, key)
    case Some(FText(s)) => s
    case _ => ""
  }

  /** The map a form holds for a key, empty when the key is missing. */
  function FormMap(fields: seq<FormField>, key: string): map<string, string>
  {
    match Lookup<FormValue>(fields, key)
    case Some(FMap(m)) => m
    case _ => map[]
  }

  /** How a receiver reads a create form back: a missing field is an empty one. */
  function ReadCreateForm(fields: seq<FormField>): EmployeeCreateRequest
  {
    EmployeeCreateRequest(
      FormText(fields, "name"),
      FormText(fields, "department_id"),
      FormText(fields, "department_name"),
      FormText(fields, "custom_employee_id"),
      FormText(fields, "title"),
      FormText(fields, "pin"),
      FormMap(fields, "custom_fields"))
  }

  /** What the create form binds to a key, field by field. */
  function CreateFormValue(req: EmployeeCreateRequest, k: string): Option<FormValue>
  {
    if k == "name" then Some(FText(req.name))
    else if k == "department_id" then NonEmpty(req.departmentID)
    else if k == "department_name" then NonEmpty(req.departmentName)
    else if k == "custom_employee_id" then NonEmpty(req.customEmployeeID)
    else if k == "title" then NonEmpty(req.title)
    else if k == "pin" then NonEmpty(req.pin)
    else if k == "custom_fields" then NonEmptyMap(req.customFields)
    else None
  }

  /** Looking any key up in the create form finds what the field rules bind to it. */
  lemma {:induction false} CreateFormLookup(req: EmployeeCreateRequest, k: string)
    ensures Lookup(CreateForm(req), k) == CreateFormValue(req, k)
  {
    var f0: seq<FormField> := [("name", FText(req.name))];
    assert f0[..0] == [];
    var f1 := f0 + Member("department_id", NonEmpty(req.departmentID));
    LookupAfterMember(f0, "department_id", NonEmpty(req.departmentID), k);
    var f2 := f1 + Member("department_name", NonEmpty(req.departmentName));
    LookupAfterMember(f1, "department_name", NonEmpty(req.departmentName), k);
    var f3 := f2 + Member("custom_employee_id", NonEmpty(req.customEmployeeID));
    LookupAfterMember(f2, "custom_employee_id", NonEmpty(req.customEmployeeID), k);
    var f4 := f3 + Member("title", NonEmpty(req.title));
    LookupAfterMember(f3, "title", NonEmpty(req.title), k);
    var f5 := f4 + Member("pin", NonEmpty(req.pin));
    LookupAfterMember(f4, "pin", NonEmpty(req.pin), k);
    var f6 := f5 + Member("custom_fields", NonEmptyMap(req.customFields));
    LookupAfterMember(f5, "custom_fields", NonEmptyMap(req.customFields), k);
    assert f6 == CreateForm(req);
  }

  /**
   * The form holds "name" whatever its value, each optional field exactly
   * when the request sets it, and reads back as the request.
   */
  lemma CreateFormFields(req: EmployeeCreateRequest)
    ensures Lookup(CreateForm(req), "name") == Some(FText(req.name))
    ensures Lookup(CreateForm(req), "department_id").Some? <==> req.departmentID != ""
    ensures Lookup(CreateForm(req), "department_name").Some? <==> req.departmentName != ""
    ensures Lookup(CreateForm(req), "custom_employee_id").Some? <==> req.customEmployeeID != ""
    ensures Lookup(CreateForm(req), "title").Some? <==> req.title != ""
    ensures Lookup(CreateForm(req), "pin").Some? <==> req.pin != ""
    ensures Lookup(CreateForm(req), "custom_fields").Some? <==> |req.customFields| != 0
    ensures ReadCreateForm(CreateForm(req)) == req
  {
    CreateFormLookup(req, "name");
    CreateFormLookup(req, "department_id");
    CreateFormLookup(req, "department_name");
    CreateFormLookup(req, "custom_employee_id");
    CreateFormLookup(req, "title");
    CreateFormLookup(req, "pin");
    CreateFormLookup(req, "custom_fields");
    if |req.customFields| == 0 {
      assert req.customFields == map[];
    }
  }

  // ---------------------------------------------------------------------
  // EmployeeUpdateRequest: a JSON body.

  /** The fields of an update request; None is a nil pointer. The hourly rate is not modelled. */
  datatype EmployeeUpdateRequest = EmployeeUpdateRequest(
    name: Option<string>,
    departmentID: Option<string>,
    departmentName: Option<string>,
    customEmployeeID: Option<string>,
    title: Option<string>,
    pin: Option<string>,
    customFields: map<string, string>,
    convertPrimaryDepartment: Option<bool>)

  /** A pointer to a string as encoding/json's `omitempty` treats it: written when not nil, even if empty. */
  function StringValue(v: Option<string>): Option<Json>
  {
    if v.Some? then Some(JString(v.value)) else None
  }

  function MapValue(m: map<string, string>): Option<Json>
  {
    if |m| == 0 then None else Some(JStringMap(m))
  }

  function BoolValue(v: Option<bool>): Option<Json>
  {
    if v.Some? then Some(JBool(v.value)) else None
  }

  /**
   * The JSON object encoding/json writes for an update request, in
   * declaration order: "name" always (null when unset); every other pointer
   * only when set, even to an empty string; the map only when it has entries.
   */
  function UpdateJson(req: EmployeeUpdateRequest): Json
  {
    JObject(
      [("name", if req.name.Some? then JString(req.name.value) else JNull)]
        + Member("department_id", StringValue(req.departmentID))
        + Member("department_name", StringValue(req.departmentName))
        + Member("custom_employee_id", StringValue(req.customEmployeeID))
        + Member("title", StringValue(req.title))
        + Member("pin", StringValue(req.pin))
        + Member("custom_fields", MapValue(req.customFields))
        + Member("convert_primary_department", BoolValue(req.convertPrimaryDepartment)))
  }

  function JsonString(members: seq<(string, Json)>, key: string): Option<string>
  {
    match Lookup<Json>(members, key)
    case Some(JString(s)) => Some(s)
    case _ => None
  }

  /** How a receiver reads an update body back: null or missing is unset. */
  function ReadUpdateJson(j: Json): EmployeeUpdateRequest
  {
    var members := if j.JObject? then j.members else [];
    EmployeeUpdateRequest(
      JsonString(members, "name"),
      JsonString(members, "department_id"),
      JsonString(members, "department_name"),
      JsonString(members, "custom_employee_id"),
      JsonString(members, "title"),
      JsonString(members, "pin"),
      match Lookup<Json>(members, "custom_fields") case Some(JStringMap(m)) => m case _ => map[],
      match Lookup<Json>(members, "convert_primary_department") case Some(JBool(b)) => Some(b) case _ => None)
  }

  /** What the update body binds to a key, field by field. */
  function UpdateJsonValue(req: EmployeeUpdateRequest, k: string): Option<Json>
  {
    if k == "name" then Some(if req.name.Some? then JString(req.name.value) else JNull)
    else if k == "department_id" then StringValue(req.departmentID)
    else if k == "department_name" then StringValue(req.departmentName)
    else if k == "custom_employee_id" then StringValue(req.customEmployeeID)
    else if k == "title" then StringValue(req.title)
    else if k == "pin" then StringValue(req.pin)
    else if k == "custom_fields" then MapValue(req.customFields)
    else if k == "convert_primary_department" then BoolValue(req.convertPrimaryDepartment)
    else None
  }

  /** Looking any key up in the update body finds what the field rules bind to it. */
  lemma {:induction false} UpdateJsonLookup(req: EmployeeUpdateRequest, k: string)
    ensures Lookup(UpdateJson(req).members, k) == UpdateJsonValue(req, k)
  {
    var m0: seq<(string, Json)> := [("name", if req.name.Some? then JString(req.name.value) else JNull)];
    assert m0[..0] == [];
    var m1 := m0 + Member("department_id", StringValue(req.departmentID));
    LookupAfterMember(m0, "department_id", StringValue(req.departmentID), k);
    var m2 := m1 + Member("department_name", StringValue(req.departmentName));
    LookupAfterMember(m1, "department_name", StringValue(req.departmentName), k);
    var m3 := m2 + Member("custom_employee_id", StringValue(req.customEmployeeID));
    LookupAfterMember(m2, "custom_employee_id", StringValue(req.customEmployeeID), k);
    var m4 := m3 + Member("title", StringValue(req.title));
    LookupAfterMember(m3, "title", StringValue(req.title), k);
    var m5 := m4 + Member("pin", StringValue(req.pin));
    LookupAfterMember(m4, "pin", StringValue(req.pin), k);
    var m6 := m5 + Member("custom_fields", MapValue(req.customFields));
    LookupAfterMember(m5, "custom_fields", MapValue(req.customFields), k);
    var m7 := m6 + Member("convert_primary_department", BoolValue(req.convertPrimaryDepartment));
    LookupAfterMember(m6, "convert_primary_department", BoolValue(req.convertPrimaryDepartment), k);
    assert JObject(m7) == UpdateJson(req);
  }

  /**
   * The update body holds "name" always (null when unset), each other field
   * exactly when it is set, and reads back as the request.
   */
  lemma UpdateJsonFields(req: EmployeeUpdateRequest)
    ensures Lookup(UpdateJson(req).members, "name").Some?
    ensures req.name.None? ==> Lookup(UpdateJson(req).members, "name") == Some(JNull)
    ensures Lookup(UpdateJson(req).members, "department_id").Some? <==> req.departmentID.Some?
    ensures Lookup(UpdateJson(req).members, "department_name").Some? <==> req.departmentName.Some?
    ensures Lookup(UpdateJson(req).members, "custom_employee_id").Some? <==> req.customEmployeeID.Some?
    ensures Lookup(UpdateJson(req).members, "title").Some? <==> req.title.Some?
    ensures Lookup(UpdateJson(req).members, "pin").Some? <==> req.pin.Some?
    ensures Lookup(UpdateJson(req).members, "custom_fields").Some? <==> |req.customFields| != 0
    ensures Lookup(UpdateJson(req).members, "convert_primary_department").Some? <==> req.convertPrimaryDepartment.Some?
    ensures ReadUpdateJson(UpdateJson(req)) == req
  {
    UpdateJsonLookup(req, "name");
    UpdateJsonLookup(req, "department_id");
    UpdateJsonLookup(req, "department_name");
    UpdateJsonLookup(req, "custom_employee_id");
    UpdateJsonLookup(req, "title");
    UpdateJsonLookup(req, "pin");
    UpdateJsonLookup(req, "custom_fields");
    UpdateJsonLookup(req, "convert_primary_department");
    UpdateJsonReadsBack(req);
  }

  /** Reading the update body back field by field recovers the request. */
  lemma UpdateJsonReadsBack(req: EmployeeUpdateRequest)
    ensures ReadUpdateJson(UpdateJson(req)) == req
  {
    var members := UpdateJson(req).members;
    UpdateJsonLookup(req, "name");
    UpdateJsonLookup(req, "department_id");
    UpdateJsonLookup(req, "department_name");
    UpdateJsonLookup(req, "custom_employee_id");
    UpdateJsonLookup(req, "title");
    UpdateJsonLookup(req, "pin");
    UpdateJsonLookup(req, "custom_fields");
    UpdateJsonLookup(req, "convert_primary_department");
    ReadMembersBack(req, members);
  }

  /** Any object binding the keys as the field rules do reads back as the request. */
  lemma ReadMembersBack(req: EmployeeUpdateRequest, members: seq<(string, Json)>)
    requires Lookup(members, "name") == UpdateJsonValue(req, "name")
    requires Lookup(members, "department_id") == UpdateJsonValue(req, "department_id")
    requires Lookup(members, "department_name") == UpdateJsonValue(req, "department_name")
    requires Lookup(members, "custom_employee_id") == UpdateJsonValue(req, "custom_employee_id")
    requires Lookup(members, "title") == UpdateJsonValue(req, "title")
    requires Lookup(members, "pin") == UpdateJsonValue(req, "pin")
    requires Lookup(members, "custom_fields") == UpdateJsonValue(req, "custom_fields")
    requires Lookup(members, "convert_primary_department") == UpdateJsonValue(req, "convert_primary_department")
    ensures ReadUpdateJson(JObject(members)) == req
  {
    if |req.customFields| == 0 {
      assert req.customFields == map[];
    }
  }

  // ---------------------------------------------------------------------
  // The routing table.

  datatype Operation = Create | Get(id: string) | Update(id: string) | Delete(id: string) | List

  /** The method and path of each employee operation. */
  function Route(op: Operation): (Method, string)
  {
    match op
    case Create => (POST, "/employees")
    case Get(id) => (GET, "/employees/" + id)
    case Update(id) => (PUT, "/employees/" + id)
    case Delete(id) => (DELETE, "/employees/" + id)
    case List => (GET, "/employees")
  }

  /** The route determines the operation: no two operations share a method and a path. */
  lemma RouteDeterminesOperation(a: Operation, b: Operation)
    requires Route(a) == Route(b)
    ensures a == b
  {
    var prefix := "/employees/";
    if (a.Get? && b.Get?) || (a.Update? && b.Update?) || (a.Delete? && b.Delete?) {
      assert a.id == (prefix + a.id)[|prefix|..] == (prefix + b.id)[|prefix|..] == b.id;
    }
  }

  /** employeeClient.Create: POST /employees with the url-form of the request. */
  method CreateEmployee(c: Client, req: EmployeeCreateRequest, world: World, lib: Library,
                        decode: string -> Decoded<EmployeeResponse>) returns (r: Result<Employee>)
    modifies world, c.httpClient.transport.logr.handler
    ensures r == Dispatched(c.httpClient.transport.Resolved(world.env), c.conf.GetBaseURL() + Route(Create).1, Route(Create).0,
                            FormBody(CreateForm(req)), |old(world.sent)|, world.respond, lib, decode).Map(EmployeeOf)
    ensures Performed(c, Route(Create).0, Route(Create).1, FormBody(CreateForm(req)), world, lib)
  {
    var resp := HttpPost(c, "/employees", FormBody(CreateForm(req)), world, lib, decode);
    if resp.Err? {
      return Err(resp.error);
    }
    return Ok(resp.value.employee);
  }

  /** employeeClient.Get: GET /employees/<id>. */
  method GetEmployee(c: Client, id: string, world: World, lib: Library,
                     decode: string -> Decoded<EmployeeResponse>) returns (r: Result<Employee>)
    modifies world, c.httpClient.transport.logr.handler
    ensures r == Dispatched(c.httpClient.transport.Resolved(world.env), c.conf.GetBaseURL() + Route(Get(id)).1, Route(Get(id)).0,
                            NoBody, |old(world.sent)|, world.respond, lib, decode).Map(EmployeeOf)
    ensures Performed(c, Route(Get(id)).0, Route(Get(id)).1, NoBody, world, lib)
  {
    var resp := HttpGet(c, "/employees/" + id, world, lib, decode);
    if resp.Err? {
      return Err(resp.error);
    }
    return Ok(resp.value.employee);
  }

  /** employeeClient.Update: PUT /employees/<id> with the JSON of the request. */
  method UpdateEmployee(c: Client, id: string, req: EmployeeUpdateRequest, world: World, lib: Library,
                        decode: string -> Decoded<EmployeeResponse>) returns (r: Result<Employee>)
    modifies world, c.httpClient.transport.logr.handler
    ensures r == Dispatched(c.httpClient.transport.Resolved(world.env), c.conf.GetBaseURL() + Route(Update(id)).1, Route(Update(id)).0,
                            JsonBody(UpdateJson(req)), |old(world.sent)|, world.respond, lib, decode).Map(EmployeeOf)
    ensures Performed(c, Route(Update(id)).0, Route(Update(id)).1, JsonBody(UpdateJson(req)), world, lib)
  {
    var resp := HttpPut(c, "/employees/" + id, JsonBody(UpdateJson(req)), world, lib, decode);
    if resp.Err? {
      return Err(resp.error);
    }
    return Ok(resp.value.employee);
  }

  /** employeeClient.Delete: DELETE /employees/<id>. */
  method DeleteEmployee(c: Client, id: string, world: World, lib: Library,
                        decode: string -> Decoded<EmployeeResponse>) returns (r: Result<Employee>)
    modifies world, c.httpClient.transport.logr.handler
    ensures r == Dispatched(c.httpClient.transport.Resolved(world.env), c.conf.GetBaseURL() + Route(Delete(id)).1, Route(Delete(id)).0,
                            NoBody, |old(world.sent)|, world.respond, lib, decode).Map(EmployeeOf)
    ensures Performed(c, Route(Delete(id)).0, Route(Delete(id)).1, NoBody, world, lib)
  {
    var resp := HttpDelete(c, "/employees/" + id, world, lib, decode);
    if resp.Err? {
      return Err(resp.error);
    }
    return Ok(resp.value.employee);
  }

  /** employeeClient.List: GET /employees. */
  method ListEmployees(c: Client, world: World, lib: Library,
                       decode: string -> Decoded<EmployeeListResponse>) returns (r: Result<seq<Employee>>)
    modifies world, c.httpClient.transport.logr.handler
    ensures r == Dispatched(c.httpClient.transport.Resolved(world.env), c.conf.GetBaseURL() + Route(List).1, Route(List).0,
                            NoBody, |old(world.sent)|, world.respond, lib, decode).Map(EmployeesOf)
    ensures Performed(c, Route(List).0, Route(List).1, NoBody, world, lib)
  {
    var resp := HttpGet(c, "/employees", world, lib, decode);
    if resp.Err? {
      return Err(resp.error);
    }
    return Ok(resp.value.employees);
  }
}
