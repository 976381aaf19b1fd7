/**
 * The computations in src/components/EmployeeGrid.tsx that are not grid
 * configuration: the pinned totals row, the status cell's label, the Name
 * and Skills value getters, and the selection callback's first-or-null rule.
 */
module EmployeeGrid {
  import opened Wrappers
  import opened Employees
  import opened Text

  /**
   * The synthetic totals row pinned at the bottom of the grid. `isActive` is
   * always null there; the label columns carry counts as text.
   */
  datatype PinnedRow = PinnedRow(
    isActive: Option<bool>,
    department: string,
    position: string,
    salary: real,
    performanceRating: real,
    projectsCompleted: int)

  /** What a grid row's `data` holds: an employee record or the pinned totals row. */
  datatype GridRow = EmployeeRow(employee: Employee) | TotalsRow(totals: PinnedRow)

  /** Where a row is pinned (`node.rowPinned`); None for an ordinary row. */
  datatype Pin = Top | Bottom

  /** JavaScript `n || 1` on a count: 0 is falsy, so it becomes 1. */
  function CountOrOne(n: nat): (r: nat)
    ensures r >= 1
    ensures n > 0 ==> r == n
    ensures n == 0 ==> r == 1
  {
    if n != 0 then n else 1
  }

  // ---------------------------------------------------------------------
  // pinnedBottomRowData
  // ---------------------------------------------------------------------

  const ActiveSuffix := " Active"
  const EmployeesSuffix := " Employees"

  /**
   * The totals row: active and total counts as labels, salary and rating
   * averaged over `length || 1`, and the projects summed (not averaged).
   */
  function PinnedBottomRow(es: seq<Employee>): (r: PinnedRow)
    ensures r.isActive == None
    ensures r.department == CountLabel(|ActivePositions(es)|, ActiveSuffix)
    ensures r.position == CountLabel(|es|, EmployeesSuffix)
    ensures ReadCountLabel(r.department, ActiveSuffix) == Some(|ActivePositions(es)|)
    ensures ReadCountLabel(r.position, EmployeesSuffix) == Some(|es|)
    ensures es == [] ==> r.salary == 0.0 && r.performanceRating == 0.0 && r.projectsCompleted == 0
    ensures es != [] ==> r.salary == Mean(es, Salary) && r.performanceRating == Mean(es, PerformanceRating)
    ensures r.projectsCompleted == ProjectsTotal(es)
  {
    ActiveCountIsActivePositions(es);
    CountLabelRoundTrip(|ActiveEmployees(es)|, ActiveSuffix);
    CountLabelRoundTrip(|es|, EmployeesSuffix);
    PinnedRow(
      None,
      CountLabel(|ActiveEmployees(es)|, ActiveSuffix),
      CountLabel(|es|, EmployeesSuffix),
      PinnedAverage(es, Salary),
      PinnedAverage(es, PerformanceRating),
      ProjectsTotal(es))
  }

  /** `sum / (employees.length || 1)`: the mean, or 0 for no records. */
  function PinnedAverage(es: seq<Employee>, m: Metric): (r: real)
    ensures es == [] ==> r == 0.0
    ensures es != [] ==> r == Mean(es, m)
  {
    Total(es, m) / (CountOrOne(|es|) as real)
  }

  /** With non-negative counts, no record's count exceeds the pinned projects figure. */
  lemma PinnedProjectsAtLeastEach(es: seq<Employee>)
    requires forall i :: 0 <= i < |es| ==> es[i].projectsCompleted >= 0
    ensures forall i :: 0 <= i < |es| ==> es[i].projectsCompleted <= PinnedBottomRow(es).projectsCompleted
  {
    forall i | 0 <= i < |es|
      ensures es[i].projectsCompleted <= ProjectsTotal(es)
    {
      ProjectsTotalBoundsEach(es, i);
    }
  }

  /** The pinned projects figure is a sum: it grows by each appended batch's sum. */
  lemma PinnedProjectsAdd(a: seq<Employee>, b: seq<Employee>)
    ensures PinnedBottomRow(a + b).projectsCompleted
         == PinnedBottomRow(a).projectsCompleted + PinnedBottomRow(b).projectsCompleted
  {
    ProjectsTotalAppend(a, b);
  }

  // ---------------------------------------------------------------------
  // StatusCell
  // ---------------------------------------------------------------------

  /** The three labels a status cell can show. */
  datatype Status = Totals | Active | Inactive

  /** The pill's text: each label has its own word, so the three exclude each other. */
  function StatusText(s: Status): (text: string)
    ensures text == "Totals" <==> s == Totals
    ensures text == "Active" <==> s == Active
    ensures text == "Inactive" <==> s == Inactive
  {
    match s
    case Totals => "Totals"
    case Active => "Active"
    case Inactive => "Inactive"
  }

  /**
   * The pill's CSS class list: the base class "status-pill" followed by one
   * modifier that matches the label.
   */
  function StatusClassName(s: Status): (className: string)
    ensures |className| > 12 && className[..12] == "status-pill "
    ensures className == "status-pill status-pill--placeholder" <==> s == Totals
    ensures className == "status-pill status-pill--active" <==> s == Active
    ensures className == "status-pill status-pill--inactive" <==> s == Inactive
  {
    match s
    case Totals => "status-pill status-pill--placeholder"
    case Active => "status-pill status-pill--active"
    case Inactive => "status-pill status-pill--inactive"
  }

  /** `Boolean(value)` for a `boolean | null` cell value: only `true` is truthy. */
  function Truthy(value: Option<bool>): (truthy: bool)
    ensures value == None ==> !truthy
    ensures value == Some(false) ==> !truthy
    ensures value == Some(true) ==> truthy
  {
    value == Some(true)
  }

  /**
   * A pinned row shows the "Totals" placeholder whatever its value; any
   * other row shows "Active" when its value is truthy and "Inactive" otherwise.
   */
  function StatusCell(value: Option<bool>, rowPinned: Option<Pin>): (r: Status)
    ensures r == Totals <==> rowPinned.Some?
    ensures r == Active <==> rowPinned.None? && value == Some(true)
    ensures r == Inactive <==> rowPinned.None? && value != Some(true)
    ensures StatusText(r) == "Totals" <==> rowPinned.Some?
    ensures StatusText(r) == "Active" <==> rowPinned.None? && value == Some(true)
    ensures StatusText(r) == "Inactive" <==> rowPinned.None? && value != Some(true)
  {
    if rowPinned.Some? then Totals
    else if Truthy(value) then Active
    else Inactive
  }

  /** The status column's tooltip, chosen by the truthiness of the cell value. */
  function StatusTooltip(value: Option<bool>): (r: string)
    ensures r == "Currently employed" <==> value == Some(true)
    ensures r == "No longer employed" <==> value != Some(true)
  {
    if Truthy(value) then "Currently employed" else "No longer employed"
  }

  // ---------------------------------------------------------------------
  // Value getters
  // ---------------------------------------------------------------------

  /**
   * The Name column: first name, a space, last name, each part "" where the
   * row has none (no data at all, or the totals row, which has no names).
   */
  function NameValue(data: Option<GridRow>): (r: string)
    ensures data.Some? && data.value.EmployeeRow? ==>
      var e := data.value.employee;
      |r| == |e.firstName| + 1 + |e.lastName|
      && r[..|e.firstName|] == e.firstName
      && r[|e.firstName|] == ' '
      && r[|e.firstName| + 1..] == e.lastName
    ensures !(data.Some? && data.value.EmployeeRow?) ==> r == " "
  {
    var first := if data.Some? && data.value.EmployeeRow? then data.value.employee.firstName else "";
    var last := if data.Some? && data.value.EmployeeRow? then data.value.employee.lastName else "";
    first + " " + last
  }

  const SkillSeparator := ", "

  /**
   * The Skills column (and its tooltip): the skills joined with ", ", or ""
   * where the row has no skills list.
   */
  function SkillsValue(data: Option<GridRow>): (r: string)
    ensures data.Some? && data.value.EmployeeRow? ==> r == Join(data.value.employee.skills, SkillSeparator)
    ensures data.Some? && data.value.EmployeeRow? && |data.value.employee.skills| > 0 ==>
      |r| == TotalLength(data.value.employee.skills) + (|data.value.employee.skills| - 1) * 2
    ensures data.Some? && data.value.EmployeeRow? && |data.value.employee.skills| == 1 ==>
      r == data.value.employee.skills[0]
    ensures !(data.Some? && data.value.EmployeeRow?) ==> r == ""
    ensures data.Some? && data.value.EmployeeRow? && data.value.employee.skills == [] ==> r == ""
  {
    match data
    case Some(EmployeeRow(e)) =>
      JoinLength(e.skills, SkillSeparator);
      Join(e.skills, SkillSeparator)
    case _ => ""
  }

  /**
   * With skills free of commas, the Skills text holds one comma per gap, so
   * the number of skills can be read back from it.
   */
  lemma SkillsValueCommaCount(e: Employee)
    requires |e.skills| > 0
    requires forall i :: 0 <= i < |e.skills| ==> Occurrences(e.skills[i], ',') == 0
    ensures Occurrences(SkillsValue(Some(EmployeeRow(e))), ',') == |e.skills| - 1
  {
    JoinSeparatorCount(e.skills, SkillSeparator, ',');
  }

  // ---------------------------------------------------------------------
  // onSelectionChanged
  // ---------------------------------------------------------------------

  /** The employee reported for the grid's selected rows: the first, or null. */
  function FirstOrNull(selection: seq<Employee>): (r: Option<Employee>)
    ensures r.Some? <==> |selection| > 0
    ensures r.Some? ==> r.value == selection[0]
  {
    if |selection| > 0 then Some(selection[0]) else None
  }
}
