# Employee insights dashboard — a Dafny model

The dashboard shows a fixed list of employee records in a data grid, with
summary cards above it. This project models the parts of it that compute
something:

- the **insight figures** on the cards (`src/App.tsx`): the employee count,
  the active count, the number of distinct departments, and the mean salary
  and mean performance rating;
- the **pinned totals row** at the bottom of the grid
  (`src/components/EmployeeGrid.tsx`): an "`<n> Active`" label, an
  "`<n> Employees`" label, the salary and rating averaged over `length || 1`,
  and the *sum* of completed projects;
- the grid's **per-row rules**: the status cell label ("Totals" on a pinned
  row, otherwise "Active"/"Inactive"), the status tooltip, the Name and Skills
  value getters, and the selection callback's first-row-or-null rule;
- the **session state** of the app: the quick-filter text and the selected
  employee. Each has its own setter, and the detail panel shows exactly when
  an employee is selected.

Files, one module each:

- `wrappers.dfy`: `Option`, which stands for JavaScript `null`/`undefined`.
- `employees.dfy`: the `Employee` record and the folds both components share.
  These are the `reduce` sums, the `isActive` filter and the department
  `Set`, with the mean and its bounds.
- `text.dfy`: a count written into a template literal (`${n}`), its inverse,
  and `join`.
- `employee_grid.dfy`: `src/components/EmployeeGrid.tsx`.
- `app.dfy`: `src/App.tsx`. The insights are a function. The session is a
  class with the two state fields and one method per setter call.

Salary and rating are `real` and projects are `int`, so the averages are
exact quotients. The employee sequence is a parameter (a `const` of the
session), not the bundled dataset. `src/types.ts` and `src/data/employees.ts`
are not part of this model. The record's fields follow the property names the
code reads.

Two behaviours of the code are easy to miss, and the model keeps both:

- The card averages divide by the length with no guard for an empty list
  (`src/App.tsx:19-24`), so `ComputeInsights` requires a non-empty sequence.
  Only the grid's totals row (`src/components/EmployeeGrid.tsx:176-181`)
  yields 0 for no records, and `PinnedAverage` models that.
- The app has no action that clears the filter text. Its "Clear Selection"
  button and the panel's close button clear only the selection, and
  `Session.ClearSelection` models that.

## Model

| member | source | states |
|---|---|---|
| Employees.Total | src/App.tsx:19-24 | the `reduce` sum starts from 0, so no records give 0 and one record gives its own value |
| Employees.ProjectsTotal | src/components/EmployeeGrid.tsx:182-185 | the projects sum is non-negative when every record's count is |
| Employees.Mean | src/App.tsx:19-24 | the mean of a non-empty list lies between the smallest and the largest value of the field |
| Employees.MeanWithinRange | src/App.tsx:19-24 | the sum divided by the count lies between the field's minimum and maximum |
| Employees.TotalBounds | src/App.tsx:19-24 | a `reduce` sum over n records whose values lie in [lo, hi] lies in [n·lo, n·hi] |
| Employees.MinMeasure | src/App.tsx:19-24 | the minimum is attained by some record and is at most every record's value |
| Employees.MaxMeasure | src/App.tsx:19-24 | the maximum is attained by some record and is at least every record's value |
| Employees.ActiveEmployees | src/App.tsx:17 | the filter keeps exactly the active records, so its length never exceeds the input's |
| Employees.ActiveCountIsActivePositions | src/App.tsx:17-28 | the filtered length equals the number of positions holding an active record |
| Employees.Departments | src/App.tsx:18 | a string is in the department set iff some record has exactly that department; the set has at most one member per record and at least one for a non-empty list |
| Employees.DepartmentsAreDistinctValues | src/App.tsx:18 | the set built record by record equals the set of all records' departments |
| Employees.ProjectsTotalAppend | src/components/EmployeeGrid.tsx:182-185 | the projects fold splits over concatenation, so it is a plain sum |
| Employees.ProjectsTotalBoundsEach | src/components/EmployeeGrid.tsx:182-185 | with non-negative counts, no single record's count exceeds the sum |
| Text.DecimalString | src/components/EmployeeGrid.tsx:174-175 | a count renders as a non-empty string of decimal digits with no leading zero, and 0 renders as exactly "0" |
| Text.ParseDecimalString | src/components/EmployeeGrid.tsx:174-175 | reading the rendered digits back gives the count |
| Text.DecimalStringInjective | src/components/EmployeeGrid.tsx:174-175 | two counts render to the same text only when they are equal |
| Text.CountLabel | src/components/EmployeeGrid.tsx:174-175 | the label is longer than its suffix and ends with the suffix |
| Text.CountLabelRoundTrip | src/components/EmployeeGrid.tsx:174-175 | a "`<n><suffix>`" label reads back as n |
| Text.Join | src/components/EmployeeGrid.tsx:134 | no parts join to "", one part joins to itself, two parts join with the separator between them |
| Text.JoinLength | src/components/EmployeeGrid.tsx:134 | a join is as long as all its parts plus one separator per gap |
| Text.JoinSnoc | src/components/EmployeeGrid.tsx:134 | joining one more part appends the separator and that part |
| Text.JoinSeparatorCount | src/components/EmployeeGrid.tsx:134 | when no part contains the separator's character, the join holds exactly one such character per gap (times its count in the separator) |
| EmployeeGrid.CountOrOne | src/components/EmployeeGrid.tsx:178 | the divisor is the length when the length is non-zero and exactly 1 when it is 0 |
| EmployeeGrid.PinnedAverage | src/components/EmployeeGrid.tsx:176-181 | dividing by the length, or by 1 when there are no records, gives 0 for no records and the same mean as the insight cards otherwise |
| EmployeeGrid.PinnedBottomRow | src/components/EmployeeGrid.tsx:170-189 | status is null; the department label is exactly the active count's digits then " Active", and the position label the record count's digits then " Employees", so each reads back as its count; salary and rating are 0 for no records and the means otherwise; projects is the plain sum |
| EmployeeGrid.PinnedProjectsAtLeastEach | src/components/EmployeeGrid.tsx:182-185 | with non-negative counts, the pinned projects figure is at least every record's count (its non-negativity is `ProjectsTotal`'s contract) |
| EmployeeGrid.PinnedProjectsAdd | src/components/EmployeeGrid.tsx:182-185 | the pinned projects figure of two lists put together is the sum of their figures |
| EmployeeGrid.Truthy | src/components/EmployeeGrid.tsx:29 | `Boolean(value)` of a cell value that is a boolean or null: null and false are falsy, true is truthy |
| EmployeeGrid.StatusText | src/components/EmployeeGrid.tsx:26-36 | the pill text is "Totals", "Active" or "Inactive", one word per label, so a text names exactly one label |
| EmployeeGrid.StatusClassName | src/components/EmployeeGrid.tsx:26-34 | every class list starts with "status-pill "; the placeholder, active and inactive modifiers each go with exactly one label |
| EmployeeGrid.StatusCell | src/components/EmployeeGrid.tsx:21-39 | label `Totals` (text "Totals") iff the row is pinned, whatever the value; otherwise `Active` (text "Active") iff the value is true and `Inactive` (text "Inactive") iff it is not |
| EmployeeGrid.StatusTooltip | src/components/EmployeeGrid.tsx:58-59 | "Currently employed" iff the value is true, "No longer employed" otherwise |
| EmployeeGrid.NameValue | src/components/EmployeeGrid.tsx:63-64 | for an employee row, the first name, one space, then the last name; for a row without names (no data, the totals row), a lone space |
| EmployeeGrid.SkillsValue | src/components/EmployeeGrid.tsx:134-138 | for an employee row, its skills in order joined with ", "; "" for a row without a skills list and for an empty list; one skill shows as itself; the length is all skills plus two characters per gap |
| EmployeeGrid.SkillsValueCommaCount | src/components/EmployeeGrid.tsx:134 | for comma-free skills, the Skills text has one comma fewer than there are skills |
| EmployeeGrid.FirstOrNull | src/components/EmployeeGrid.tsx:195-201 | a selection is reported iff the selected rows are non-empty, and it is the first of them |
| App.ComputeInsights | src/App.tsx:15-33 | for a non-empty list: the total is the length; the active count is the number of active positions and at most the total; the department count is the number of distinct department strings, between 1 and the total; each average is sum ÷ count and lies between the field's minimum and maximum |
| App.PinnedRowAgreesWithInsights | src/components/EmployeeGrid.tsx:170-189 | for a non-empty list the totals row and the insight cards give the same averages and the same active and total counts |
| App.TwoEmployeeInsights | src/App.tsx:15-33 | an active record (100000, 4.0, "Eng") and an inactive one (200000, 2.0, "Sales") give 2 employees, 1 active, 2 departments, mean salary 150000 and mean rating 3.0 |
| App.Session.constructor | src/App.tsx:10-13 | the filter text starts as "" and the selection as null, so no detail panel is shown (the panel at line 71 renders only for a selection) |
| App.Session.SetQuickFilter | src/App.tsx:61 | the filter text becomes the typed value; the selection and the panel are unchanged |
| App.Session.SetSelectedEmployee | src/App.tsx:67-71 | the selection becomes the reported employee, the filter text is unchanged, and the panel shows iff an employee was reported |
| App.Session.ClearSelection | src/App.tsx:62-71 | the selection becomes null and the panel closes; the filter text is unchanged (the panel's close button at line 76 does the same) |
| App.Session.OnSelectionChanged | src/components/EmployeeGrid.tsx:195-201 | the first selected row becomes the selection, or null for none; the filter text is unchanged; the detail panel (src/App.tsx:71) shows iff rows are selected |
| App.Session.CurrentInsights | src/App.tsx:15-33 | the insights are read from the fixed employee sequence alone (no `reads` clause), so filter and selection changes cannot affect them; the total is the sequence length |

## Left out

- AG Grid itself is not modelled. That covers rendering, quick-filter matching, sorting, the set/text/number/date filters, pagination, the side bar and the status bar. It is a foreign library whose behaviour the source does not show. So the rows displayed for a given filter text are not modelled.
- Column configuration that only passes options to the grid is not modelled: widths, `filter` kinds, `chartDataType`, `defaultColDef`, `autoGroupColumnDef`, `getRowId` and `onGridReady`'s `sizeColumnsToFit`.
- Date handling is not modelled: `new Date(...)`, `toLocaleDateString` and the hire-date comparator. These depend on JavaScript date parsing and the locale.
- Currency and one-decimal formatting (`toLocaleString`, `toFixed`) is not modelled, in the grid, the detail panel or the insight cards. It depends on the locale and on floating point.
- IEEE floating-point rounding is not modelled: averages are exact `real` quotients. The JavaScript result of `0 / 0` (NaN) on an empty list is outside `ComputeInsights`, which requires a non-empty list.
- React memoisation is not modelled: `useMemo` and `useCallback` dependency tracking, re-rendering, JSX markup and CSS.
- `src/components/InsightCards.tsx` and `src/components/Toolbar.tsx` are presentation only and are not modelled. The toolbar forwards the input's value to `SetQuickFilter` and its button to `ClearSelection`.
- The detail panel's contents (name, position, department and so on, `src/App.tsx:80-134`) are not modelled. Only whether the panel is shown is modelled.
- `DecimalString` renders a count as plain digits. That matches JavaScript's number-to-string only below 10^21, where JavaScript switches to exponent notation. No count reaches that.
