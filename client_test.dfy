/**
 * The clean-up half of client_test.go: the test sweeper that collects every
 * employee and department named with the test prefix and deletes them, and
 * the errorList it reports failed deletes with.
 */
module ClientTest {
  import opened Options
  import opened Errors
  import opened Employees
  import opened Departments
  import opened Sweeper

  /** Every resource the integration tests create is named with this prefix. */
  const TestResourcePrefix := "gomtstest"

  /** errorList.Error: "errors:" followed by " <message>;" per error, built up one error at a time. */
  method ErrorListError(errs: seq<Failure>) returns (s: string)
    ensures s == Message(Aggregate(errs))
  {
    s := "errors:";
    for i := 0 to |errs|
      invariant s == "errors:" + Items(errs[..i])
    {
      assert errs[..i + 1][..i] == errs[..i];
      s := s + " " + Message(errs[i]) + ";";
    }
    assert errs[..|errs|] == errs;
  }

  /** testSweepOptions: the IDs collected so far. */
  datatype SweepOptions = SweepOptions(employeeIDs: seq<string>, departmentIDs: seq<string>)

  /** testSweeper: the client and the options it fills. */
  class TestSweeper {
    const api: Api
    var opts: SweepOptions

    constructor (api: Api)
      ensures this.api == api && opts == SweepOptions([], [])
    {
      this.api := api;
      opts := SweepOptions([], []);
    }

    /**
     * collectAll: appends the IDs of the test employees, then of the test
     * departments; a failed list is returned at once, keeping whatever was
     * appended before it.
     */
    method CollectAll() returns (err: Option<Failure>)
      modifies this
      ensures api.listEmployees.Err? ==> err == Some(api.listEmployees.error) && opts == old(opts)
      ensures api.listEmployees.Ok? ==>
        opts.employeeIDs == old(opts.employeeIDs) + Matching(api.listEmployees.value, EmployeeName, EmployeeID, TestResourcePrefix)
      ensures api.listEmployees.Ok? && api.listDepartments.Err? ==>
        err == Some(api.listDepartments.error) && opts.departmentIDs == old(opts.departmentIDs)
      ensures api.listEmployees.Ok? && api.listDepartments.Ok? ==>
        && err == None
        && opts.departmentIDs == old(opts.departmentIDs)
             + Matching(api.listDepartments.value, DepartmentName, DepartmentID, TestResourcePrefix)
    {
      if api.listEmployees.Err? {
        return Some(api.listEmployees.error);
      }
      var employees := api.listEmployees.value;
      for i := 0 to |employees|
        invariant opts.employeeIDs == old(opts.employeeIDs) + Matching(employees[..i], EmployeeName, EmployeeID, TestResourcePrefix)
        invariant opts.departmentIDs == old(opts.departmentIDs)
      {
        assert employees[..i + 1][..i] == employees[..i];
        if HasPrefix(employees[i].name, TestResourcePrefix) {
          opts := opts.(employeeIDs := opts.employeeIDs + [employees[i].id]);
        }
      }
      assert employees[..|employees|] == employees;

      if api.listDepartments.Err? {
        return Some(api.listDepartments.error);
      }
      var departments := api.listDepartments.value;
      for i := 0 to |departments|
        invariant opts.departmentIDs == old(opts.departmentIDs)
          + Matching(departments[..i], DepartmentName, DepartmentID, TestResourcePrefix)
        invariant opts.employeeIDs == old(opts.employeeIDs) + Matching(employees, EmployeeName, EmployeeID, TestResourcePrefix)
      {
        assert departments[..i + 1][..i] == departments[..i];
        if HasPrefix(departments[i].name, TestResourcePrefix) {
          opts := opts.(departmentIDs := opts.departmentIDs + [departments[i].id]);
        }
      }
      assert departments[..|departments|] == departments;
      return None;
    }

    /**
     * deleteAll: deletes every collected employee, then every collected
     * department; nil when all succeed, else an errorList of the failures
     * in the order they happened.
     */
    method DeleteAll() returns (err: Option<Failure>)
      ensures err == SweepError(api, opts.employeeIDs, opts.departmentIDs)
    {
      var errList: seq<Failure> := [];
      for i := 0 to |opts.employeeIDs|
        invariant errList == Failures(opts.employeeIDs[..i], api.deleteEmployee)
      {
        assert opts.employeeIDs[..i + 1][..i] == opts.employeeIDs[..i];
        var deleted := api.deleteEmployee(opts.employeeIDs[i]);
        if deleted.Err? {
          errList := errList + [deleted.error];
        }
      }
      assert opts.employeeIDs[..|opts.employeeIDs|] == opts.employeeIDs;

      for i := 0 to |opts.departmentIDs|
        invariant errList == Failures(opts.employeeIDs, api.deleteEmployee)
          + Failures(opts.departmentIDs[..i], api.deleteDepartment)
      {
        assert opts.departmentIDs[..i + 1][..i] == opts.departmentIDs[..i];
        var deleted := api.deleteDepartment(opts.departmentIDs[i]);
        if deleted.Err? {
          errList := errList + [deleted.error];
        }
      }
      assert opts.departmentIDs[..|opts.departmentIDs|] == opts.departmentIDs;

      if |errList| == 0 {
        return None;
      }
      return Some(Aggregate(errList));
    }
  }
}
