/**
 * internal/sweeper: a collector of employee and department IDs slated for
 * deletion, filled by name prefix from the client's List results or one ID
 * at a time, and a sweep that deletes every collected ID and rolls the
 * failures up into one error. The client is seen through the results its
 * List and Delete calls give.
 */
module Sweeper {
  import opened Options
  import opened Errors
  import opened Employees
  import opened Departments

  /** strings.HasPrefix. */
  predicate HasPrefix(s: string, prefix: string)
  {
    prefix <= s
  }

  /** The IDs of the items whose name starts with `prefix`, in list order. */
  function Matching<T>(items: seq<T>, name: T -> string, id: T -> string, prefix: string): seq<string>
  {
    if items == [] then []
    else
      var last := items[|items| - 1];
      Matching(items[..|items| - 1], name, id, prefix) + (if HasPrefix(name(last), prefix) then [id(last)] else [])
  }

  /** An ID is collected exactly when some listed item with a matching name carries it. */
  lemma {:induction false} MatchingExactly<T>(items: seq<T>, name: T -> string, id: T -> string, prefix: string, x: string)
    ensures x in Matching(items, name, id, prefix) <==>
      exists i :: 0 <= i < |items| && HasPrefix(name(items[i]), prefix) && id(items[i]) == x
    ensures |Matching(items, name, id, prefix)| <= |items|
  {
    if items != [] {
      var init := items[..|items| - 1];
      MatchingExactly(init, name, id, prefix, x);
      if x in Matching(items, name, id, prefix) && x !in Matching(init, name, id, prefix) {
        assert HasPrefix(name(items[|items| - 1]), prefix) && id(items[|items| - 1]) == x;
      }
      if exists i :: 0 <= i < |items| && HasPrefix(name(items[i]), prefix) && id(items[i]) == x {
        var i :| 0 <= i < |items| && HasPrefix(name(items[i]), prefix) && id(items[i]) == x;
        if i < |init| {
          assert init[i] == items[i];
        }
      }
    }
  }

  /** When every name matches, every ID is collected, in order. */
  lemma {:induction false} MatchingAll<T>(items: seq<T>, name: T -> string, id: T -> string, prefix: string)
    requires forall i :: 0 <= i < |items| ==> HasPrefix(name(items[i]), prefix)
    ensures |Matching(items, name, id, prefix)| == |items|
    ensures forall i :: 0 <= i < |items| ==> Matching(items, name, id, prefix)[i] == id(items[i])
  {
    if items != [] {
      var init := items[..|items| - 1];
      MatchingAll(init, name, id, prefix);
    }
  }

  function EmployeeName(e: Employee): string { e.name }
  function EmployeeID(e: Employee): string { e.id }
  function DepartmentName(d: Department): string { d.name }
  function DepartmentID(d: Department): string { d.id }

  /** The client as the sweeper uses it: the answers of its List and Delete calls. */
  datatype Api = Api(
    listEmployees: Result<seq<Employee>>,
    listDepartments: Result<seq<Department>>,
    deleteEmployee: string -> Result<Employee>,
    deleteDepartment: string -> Result<Department>)

  /** The errors of the deletes that fail, in the order they are attempted. */
  function Failures<R>(ids: seq<string>, delete: string -> Result<R>): seq<Failure>
  {
    if ids == [] then []
    else
      var last := ids[|ids| - 1];
      Failures(ids[..|ids| - 1], delete) + (if delete(last).Err? then [delete(last).error] else [])
  }

  /** No failure is recorded exactly when every delete succeeds. */
  lemma {:induction false} FailuresEmptyIff<R>(ids: seq<string>, delete: string -> Result<R>)
    ensures Failures(ids, delete) == [] <==> forall i :: 0 <= i < |ids| ==> delete(ids[i]).Ok?
    ensures |Failures(ids, delete)| <= |ids|
  {
    if ids != [] {
      var init := ids[..|ids| - 1];
      FailuresEmptyIff(init, delete);
      if Failures(ids, delete) == [] {
        forall i | 0 <= i < |ids|
          ensures delete(ids[i]).Ok?
        {
          if i < |init| {
            assert init[i] == ids[i];
          }
        }
      }
    }
  }

  /** Attempting two lists in turn records the first list's failures, then the second's. */
  lemma {:induction false} FailuresAppend<R>(a: seq<string>, b: seq<string>, delete: string -> Result<R>)
    ensures Failures(a + b, delete) == Failures(a, delete) + Failures(b, delete)
  {
    if b == [] {
      assert a + b == a;
    } else {
      assert (a + b)[..|a + b| - 1] == a + b[..|b| - 1];
      FailuresAppend(a, b[..|b| - 1], delete);
    }
  }

  /** A sweep's result: nil for no failures, else the list of them. */
  function AggregateOf(errs: seq<Failure>): Option<Failure>
  {
    if |errs| == 0 then None else Some(Aggregate(errs))
  }

  /** The error of a whole sweep: the employee failures, then the department failures. */
  function SweepError(api: Api, employeeIDs: seq<string>, departmentIDs: seq<string>): Option<Failure>
  {
    AggregateOf(Failures(employeeIDs, api.deleteEmployee) + Failures(departmentIDs, api.deleteDepartment))
  }

  /** A sweep reports nothing exactly when every delete succeeds, and otherwise lists each failure. */
  lemma SweepErrorNilIff(api: Api, employeeIDs: seq<string>, departmentIDs: seq<string>)
    ensures SweepError(api, employeeIDs, departmentIDs).None? <==>
      && (forall i :: 0 <= i < |employeeIDs| ==> api.deleteEmployee(employeeIDs[i]).Ok?)
      && (forall i :: 0 <= i < |departmentIDs| ==> api.deleteDepartment(departmentIDs[i]).Ok?)
    ensures SweepError(api, employeeIDs, departmentIDs).Some? ==>
      SweepError(api, employeeIDs, departmentIDs).value.errors
        == Failures(employeeIDs, api.deleteEmployee) + Failures(departmentIDs, api.deleteDepartment)
  {
    FailuresEmptyIff(employeeIDs, api.deleteEmployee);
    FailuresEmptyIff(departmentIDs, api.deleteDepartment);
  }

  /** Sweeper: the client and the two ID lists (the mutex only serialises access and is not modelled). */
  class Sweeper {
    const api: Api
    var employeeIDs: seq<string>
    var departmentIDs: seq<string>

    /** NewSweeper: nothing collected yet. */
    constructor (api: Api)
      ensures this.api == api
      ensures employeeIDs == [] && departmentIDs == []
    {
      this.api := api;
      employeeIDs, departmentIDs := [], [];
    }

    /**
     * CollectWithPrefix: appends the IDs of the employees, then of the
     * departments, whose name starts with `prefix`. A failed employee list
     * changes nothing; a failed department list keeps the employee IDs
     * already appended.
     */
    method CollectWithPrefix(prefix: string) returns (err: Option<Failure>)
      modifies this
      ensures api.listEmployees.Err? ==>
        && err == Some(api.listEmployees.error)
        && employeeIDs == old(employeeIDs) && departmentIDs == old(departmentIDs)
      ensures api.listEmployees.Ok? ==>
        employeeIDs == old(employeeIDs) + Matching(api.listEmployees.value, EmployeeName, EmployeeID, prefix)
      ensures api.listEmployees.Ok? && api.listDepartments.Err? ==>
        err == Some(api.listDepartments.error) && departmentIDs == old(departmentIDs)
      ensures api.listEmployees.Ok? && api.listDepartments.Ok? ==>
        && err == None
        && departmentIDs == old(departmentIDs) + Matching(api.listDepartments.value, DepartmentName, DepartmentID, prefix)
    {
      if api.listEmployees.Err? {
        return Some(api.listEmployees.error);
      }
      var employees := api.listEmployees.value;
      for i := 0 to |employees|
        invariant employeeIDs == old(employeeIDs) + Matching(employees[..i], EmployeeName, EmployeeID, prefix)
        invariant departmentIDs == old(departmentIDs)
      {
        assert employees[..i + 1][..i] == employees[..i];
        if HasPrefix(employees[i].name, prefix) {
          employeeIDs := employeeIDs + [employees[i].id];
        }
      }
      assert employees[..|employees|] == employees;

      if api.listDepartments.Err? {
        return Some(api.listDepartments.error);
      }
      var departments := api.listDepartments.value;
      for i := 0 to |departments|
        invariant departmentIDs == old(departmentIDs) + Matching(departments[..i], DepartmentName, DepartmentID, prefix)
        invariant employeeIDs == old(employeeIDs) + Matching(employees, EmployeeName, EmployeeID, prefix)
      {
        assert departments[..i + 1][..i] == departments[..i];
        if HasPrefix(departments[i].name, prefix) {
          departmentIDs := departmentIDs + [departments[i].id];
        }
      }
      assert departments[..|departments|] == departments;
      return None;
    }

    /**
     * Sweep: attempts the delete of every employee ID, then of every
     * department ID, and reports the failures; the ID lists stay as they
     * are, so a second sweep attempts the same IDs again.
     */
    method Sweep() returns (err: Option<Failure>)
      ensures err == SweepError(api, employeeIDs, departmentIDs)
    {
      var errList: seq<Failure> := [];
      for i := 0 to |employeeIDs|
        invariant errList == Failures(employeeIDs[..i], api.deleteEmployee)
      {
        assert employeeIDs[..i + 1][..i] == employeeIDs[..i];
        var deleted := api.deleteEmployee(employeeIDs[i]);
        if deleted.Err? {
          errList := errList + [deleted.error];
        }
      }
      assert employeeIDs[..|employeeIDs|] == employeeIDs;

      for i := 0 to |departmentIDs|
        invariant errList == Failures(employeeIDs, api.deleteEmployee) + Failures(departmentIDs[..i], api.deleteDepartment)
      {
        assert departmentIDs[..i + 1][..i] == departmentIDs[..i];
        var deleted := api.deleteDepartment(departmentIDs[i]);
        if deleted.Err? {
          errList := errList + [deleted.error];
        }
      }
      assert departmentIDs[..|departmentIDs|] == departmentIDs;

      if |errList| == 0 {
        return None;
      }
      return Some(Aggregate(errList));
    }

    /** AddEmployee: one more employee ID at the end; the department IDs are untouched. */
    method AddEmployee(id: string)
      modifies this
      ensures employeeIDs == old(employeeIDs) + [id] && departmentIDs == old(departmentIDs)
    {
      employeeIDs := employeeIDs + [id];
    }

    /** AddDepartment: one more department ID at the end; the employee IDs are untouched. */
    method AddDepartment(id: string)
      modifies this
      ensures departmentIDs == old(departmentIDs) + [id] && employeeIDs == old(employeeIDs)
    {
      departmentIDs := departmentIDs + [id];
    }
  }
}
