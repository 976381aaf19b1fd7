/**
 * src/App.tsx: the insight figures shown on the cards, and the session
 * state of the dashboard (the quick-filter text and the selected employee).
 */
module App {
  import opened Wrappers
  import opened Employees
  import opened Text
  import opened EmployeeGrid

  /** The figures the insight cards display. */
  datatype Insights = Insights(
    totalEmployees: nat,
    activeEmployees: nat,
    departmentCount: nat,
    averageSalary: real,
    averagePerformance: real)

  /**
   * The insight figures of an employee sequence. The averages divide by the
   * record count with no guard for zero, so the sequence must be non-empty.
   */
  function ComputeInsights(es: seq<Employee>): (r: Insights)
    requires |es| > 0
    ensures r.totalEmployees == |es|
    ensures r.activeEmployees == |ActivePositions(es)| && r.activeEmployees <= r.totalEmployees
    ensures r.departmentCount == |DistinctDepartments(es)|
    ensures 1 <= r.departmentCount <= r.totalEmployees
    ensures r.averageSalary == Total(es, Salary) / (|es| as real)
    ensures MinMeasure(es, Salary) <= r.averageSalary <= MaxMeasure(es, Salary)
    ensures r.averagePerformance == Total(es, PerformanceRating) / (|es| as real)
    ensures MinMeasure(es, PerformanceRating) <= r.averagePerformance <= MaxMeasure(es, PerformanceRating)
  {
    ActiveCountIsActivePositions(es);
    var departments := Departments(es);
    DepartmentsAreDistinctValues(es);
    Insights(
      |es|,
      |ActiveEmployees(es)|,
      |departments|,
      Mean(es, Salary),
      Mean(es, PerformanceRating))
  }

  /**
   * On a non-empty sequence the grid's totals row and the insight cards
   * agree: the same averages, and the same active and total counts.
   */
  lemma PinnedRowAgreesWithInsights(es: seq<Employee>)
    requires |es| > 0
    ensures PinnedBottomRow(es).salary == ComputeInsights(es).averageSalary
    ensures PinnedBottomRow(es).performanceRating == ComputeInsights(es).averagePerformance
    ensures ReadCountLabel(PinnedBottomRow(es).department, ActiveSuffix)
         == Some(ComputeInsights(es).activeEmployees)
    ensures ReadCountLabel(PinnedBottomRow(es).position, EmployeesSuffix)
         == Some(ComputeInsights(es).totalEmployees)
  {
  }

  /**
   * Two records, one active engineer on 100000 rated 4.0 and one inactive
   * salesperson on 200000 rated 2.0, give two employees, one active, two
   * departments, a mean salary of 150000 and a mean rating of 3.0.
   */
  lemma TwoEmployeeInsights()
    ensures
      var eng := Employee(1, "Ada", "Lee", "ada@example.com", "Eng", "Engineer", "Pune",
                          "Kim", "2020-01-01", 100000.0, 4.0, 3, true, ["Go"]);
      var sales := Employee(2, "Bo", "Ray", "bo@example.com", "Sales", "Rep", "Delhi",
                            "Kim", "2021-02-01", 200000.0, 2.0, 5, false, []);
      ComputeInsights([eng, sales]) == Insights(2, 1, 2, 150000.0, 3.0)
  {
    var eng := Employee(1, "Ada", "Lee", "ada@example.com", "Eng", "Engineer", "Pune",
                        "Kim", "2020-01-01", 100000.0, 4.0, 3, true, ["Go"]);
    var sales := Employee(2, "Bo", "Ray", "bo@example.com", "Sales", "Rep", "Delhi",
                          "Kim", "2021-02-01", 200000.0, 2.0, 5, false, []);
    var es := [eng, sales];
    assert es[..1] == [eng];
    assert [eng][..0] == [];
    assert Total([eng], Salary) == 100000.0;
    assert Total(es, Salary) == 300000.0;
    assert Total([eng], PerformanceRating) == 4.0;
    assert Total(es, PerformanceRating) == 6.0;
    assert ActiveEmployees(es) == [eng];
    assert Departments(es) == {"Eng", "Sales"};
    assert |Departments(es)| == 2 by {
      assert "Eng" != "Sales";
    }
  }

  /**
   * The dashboard session: the quick-filter text and the selected employee,
   * each replaced only by its own setter. The employee sequence is fixed.
   */
  class Session {
    const employees: seq<Employee>
    var quickFilter: string
    var selectedEmployee: Option<Employee>

    /** Both pieces of state start empty. */
    constructor (employees: seq<Employee>)
      ensures this.employees == employees
      ensures quickFilter == "" && selectedEmployee == None
      ensures !DetailPanelShown()
    {
      this.employees := employees;
      quickFilter := "";
      selectedEmployee := None;
    }

    /** The detail panel renders exactly when an employee is selected. */
    predicate DetailPanelShown()
      reads this
    {
      selectedEmployee.Some?
    }

    /** Typing in the quick-search box: the selection is left alone. */
    method SetQuickFilter(value: string)
      modifies this`quickFilter
      ensures quickFilter == value
      ensures selectedEmployee == old(selectedEmployee)
      ensures DetailPanelShown() == old(DetailPanelShown())
    {
      quickFilter := value;
    }

    /** Selecting (or deselecting) an employee: the filter text is left alone. */
    method SetSelectedEmployee(employee: Option<Employee>)
      modifies this`selectedEmployee
      ensures selectedEmployee == employee
      ensures quickFilter == old(quickFilter)
      ensures DetailPanelShown() <==> employee.Some?
    {
      selectedEmployee := employee;
    }

    /** The toolbar's "Clear Selection" button and the panel's close button. */
    method ClearSelection()
      modifies this`selectedEmployee
      ensures selectedEmployee == None
      ensures quickFilter == old(quickFilter)
      ensures !DetailPanelShown()
    {
      SetSelectedEmployee(None);
    }

    /** The grid reports its selected rows; the first of them becomes the selection. */
    method OnSelectionChanged(selectedRows: seq<Employee>)
      modifies this`selectedEmployee
      ensures selectedRows != [] ==> selectedEmployee == Some(selectedRows[0])
      ensures selectedRows == [] ==> selectedEmployee == None
      ensures quickFilter == old(quickFilter)
      ensures DetailPanelShown() <==> selectedRows != []
    {
      SetSelectedEmployee(FirstOrNull(selectedRows));
    }

    /** The insight figures: a function of the fixed employee sequence alone. */
    function CurrentInsights(): (r: Insights)
      requires |employees| > 0
      ensures r.totalEmployees == |employees|
    {
      ComputeInsights(employees)
    }
  }
}
