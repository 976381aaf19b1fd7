/**
 * The employee record and the folds the dashboard runs over a sequence of
 * records: `reduce` sums, the `isActive` filter and the set of departments.
 * Both the insight cards (src/App.tsx) and the grid's pinned totals row
 * (src/components/EmployeeGrid.tsx) are built from these.
 */
module Employees {

  /** One record of the dataset; the field names are the ones the code reads. */
  datatype Employee = Employee(
    id: int,
    firstName: string,
    lastName: string,
    email: string,
    department: string,
    position: string,
    location: string,
    manager: string,
    hireDate: string,
    salary: real,
    performanceRating: real,
    projectsCompleted: int,
    isActive: bool,
    skills: seq<string>)

  /** The two numeric fields that are averaged. */
  datatype Metric = Salary | PerformanceRating

  function Measure(e: Employee, m: Metric): real
  {
    match m
    case Salary => e.salary
    case PerformanceRating => e.performanceRating
  }

  // ---------------------------------------------------------------------
  // Sums: `employees.reduce((acc, employee) => acc + employee.<field>, 0)`
  // ---------------------------------------------------------------------

  /** Left fold of `+` over the metric, starting from 0, as `reduce` does. */
  function Total(es: seq<Employee>, m: Metric): (r: real)
    ensures es == [] ==> r == 0.0
    ensures |es| == 1 ==> r == Measure(es[0], m)
  {
    if es == [] then 0.0 else Total(es[..|es| - 1], m) + Measure(es[|es| - 1], m)
  }

  /** Left fold of `+` over `projectsCompleted`, starting from 0. */
  function ProjectsTotal(es: seq<Employee>): (r: int)
    ensures (forall i :: 0 <= i < |es| ==> es[i].projectsCompleted >= 0) ==> r >= 0
  {
    if es == [] then 0 else ProjectsTotal(es[..|es| - 1]) + es[|es| - 1].projectsCompleted
  }

  /** A sum splits over concatenation: the fold is a plain sum, nothing else. */
  lemma {:induction false} ProjectsTotalAppend(a: seq<Employee>, b: seq<Employee>)
    ensures ProjectsTotal(a + b) == ProjectsTotal(a) + ProjectsTotal(b)
    decreases |b|
  {
    if b != [] {
      var b' := b[..|b| - 1];
      assert (a + b)[..|a + b| - 1] == a + b';
      ProjectsTotalAppend(a, b');
    } else {
      assert a + b == a;
    }
  }

  /** Each non-negative record contributes at most the sum. */
  lemma {:induction false} ProjectsTotalBoundsEach(es: seq<Employee>, k: nat)
    requires forall i :: 0 <= i < |es| ==> es[i].projectsCompleted >= 0
    requires k < |es|
    ensures es[k].projectsCompleted <= ProjectsTotal(es)
  {
    var n := |es|;
    if k < n - 1 {
      ProjectsTotalBoundsEach(es[..n - 1], k);
    }
  }

  /** A sum of values in [lo, hi] over n records lies in [n * lo, n * hi]. */
  lemma {:induction false} TotalBounds(es: seq<Employee>, m: Metric, lo: real, hi: real)
    requires forall i :: 0 <= i < |es| ==> lo <= Measure(es[i], m) <= hi
    ensures lo * (|es| as real) <= Total(es, m) <= hi * (|es| as real)
  {
    if es != [] {
      var p := es[..|es| - 1];
      var k := |p| as real;
      assert forall i :: 0 <= i < |p| ==> p[i] == es[i];
      TotalBounds(p, m, lo, hi);
      var x := Measure(es[|es| - 1], m);
      assert Total(es, m) == Total(p, m) + x;
      assert |es| as real == k + 1.0;
      assert lo <= x <= hi;
      assert lo * (k + 1.0) == lo * k + lo;
      assert hi * (k + 1.0) == hi * k + hi;
    }
  }

  // ---------------------------------------------------------------------
  // Extremes and the mean
  // ---------------------------------------------------------------------

  /** The smallest value of the metric in a non-empty sequence. */
  function MinMeasure(es: seq<Employee>, m: Metric): (r: real)
    requires |es| > 0
    ensures exists i :: 0 <= i < |es| && Measure(es[i], m) == r
    ensures forall i :: 0 <= i < |es| ==> r <= Measure(es[i], m)
  {
    var last := Measure(es[|es| - 1], m);
    if |es| == 1 then last
    else
      var rest := MinMeasure(es[..|es| - 1], m);
      if rest <= last then rest else last
  }

  /** The largest value of the metric in a non-empty sequence. */
  function MaxMeasure(es: seq<Employee>, m: Metric): (r: real)
    requires |es| > 0
    ensures exists i :: 0 <= i < |es| && Measure(es[i], m) == r
    ensures forall i :: 0 <= i < |es| ==> Measure(es[i], m) <= r
  {
    var last := Measure(es[|es| - 1], m);
    if |es| == 1 then last
    else
      var rest := MaxMeasure(es[..|es| - 1], m);
      if rest >= last then rest else last
  }

  /** Sum divided by count, defined only for a non-empty sequence. */
  function Mean(es: seq<Employee>, m: Metric): (r: real)
    requires |es| > 0
    ensures MinMeasure(es, m) <= r <= MaxMeasure(es, m)
  {
    MeanWithinRange(es, m);
    Total(es, m) / (|es| as real)
  }

  /** The sum over the count lies between the smallest and the largest value. */
  lemma MeanWithinRange(es: seq<Employee>, m: Metric)
    requires |es| > 0
    ensures MinMeasure(es, m) <= Total(es, m) / (|es| as real) <= MaxMeasure(es, m)
  {
    var lo, hi := MinMeasure(es, m), MaxMeasure(es, m);
    TotalBounds(es, m, lo, hi);
    MeanBetween(es, m, lo, hi);
  }

  /** A sum in [n * lo, n * hi] over n > 0 records gives a mean in [lo, hi]. */
  lemma MeanBetween(es: seq<Employee>, m: Metric, lo: real, hi: real)
    requires |es| > 0
    requires lo * (|es| as real) <= Total(es, m) <= hi * (|es| as real)
    ensures lo <= Total(es, m) / (|es| as real) <= hi
  {
  }

  // ---------------------------------------------------------------------
  // `employees.filter((employee) => employee.isActive)`
  // ---------------------------------------------------------------------

  /** The active records, in their original order. */
  function ActiveEmployees(es: seq<Employee>): (r: seq<Employee>)
    ensures |r| <= |es|
    ensures forall e :: e in r <==> e in es && e.isActive
  {
    if es == [] then []
    else
      var last := es[|es| - 1];
      ActiveEmployees(es[..|es| - 1]) + (if last.isActive then [last] else [])
  }

  /** Reference definition of the active count: the positions holding an active record. */
  ghost function ActivePositions(es: seq<Employee>): set<int>
  {
    set i | 0 <= i < |es| && es[i].isActive
  }

  /** The filter keeps exactly one record per active position. */
  lemma {:induction false} ActiveCountIsActivePositions(es: seq<Employee>)
    ensures |ActiveEmployees(es)| == |ActivePositions(es)|
  {
    if es != [] {
      var n := |es|;
      var p := es[..n - 1];
      ActiveCountIsActivePositions(p);
      ActivePositionsSnoc(p, es[n - 1]);
      assert p + [es[n - 1]] == es;
    }
  }

  /** Appending a record adds its position exactly when it is active. */
  lemma ActivePositionsSnoc(p: seq<Employee>, x: Employee)
    ensures ActivePositions(p + [x]) == ActivePositions(p) + (if x.isActive then {|p|} else {})
  {
  }

  // ---------------------------------------------------------------------
  // `new Set(employees.map((employee) => employee.department))`
  // ---------------------------------------------------------------------

  /** Distinct department strings, compared exactly (case-sensitive). */
  function Departments(es: seq<Employee>): (r: set<string>)
    ensures forall d :: d in r <==> exists i :: 0 <= i < |es| && es[i].department == d
    ensures |r| <= |es|
    ensures |es| > 0 ==> |r| >= 1
  {
    if es == [] then {}
    else
      var p := es[..|es| - 1];
      var rest := Departments(p);
      assert forall i :: 0 <= i < |p| ==> p[i] == es[i];
      rest + {es[|es| - 1].department}
  }

  /** Reference definition: the department of every position, as a set. */
  ghost function DistinctDepartments(es: seq<Employee>): set<string>
  {
    set i | 0 <= i < |es| :: es[i].department
  }

  /** The `Set` built by the code holds exactly the distinct department strings. */
  lemma DepartmentsAreDistinctValues(es: seq<Employee>)
    ensures Departments(es) == DistinctDepartments(es)
  {
  }
}
