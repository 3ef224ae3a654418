# FOCUS dashboard model

A Dafny model of the data pipeline behind the FOCUS ("Financial Oversight &
Clarity for Unified Spending") Streamlit dashboard in `focus.py`. Once a
workbook is uploaded, the dashboard:

- forward-fills the Directorate, Division and FundType columns of four sheets;
- builds three sidebar dropdowns from the Plan sheet and filters every sheet
  by the selection;
- shows six tabs, each computed from the prepared sheets:
  - FY25 Plan: the plan grouped by (Directorate, Division), with Solvency;
  - FY25 Actuals: the WBS category pivot, with Total Expenses;
  - FY25 Actuals NL Detail: vendor normalisation, then the Non-Labor category pivot;
  - Status of Funds: per-row Available, then grouped sums;
  - Scenario Planner: percentage cuts to five expense columns and Adjusted Solvency;
  - ScenarioSolvency: percentage adjustments to six projected columns, Total,
    total solvency, and the leadership insights.

The model works on already-parsed sheets. A sheet is a sequence of `Row`s: the
three hierarchy keys as `Option<string>`, and maps from the stripped header
to text and numeric cells, where a blank cell is `None`. Money is `real` and
slider positions are `int`. The steps that overwrite dataframe columns in
place are methods of the class `Frames.Frame`. The loops of the source are
methods with loop invariants:

- the forward-fill loop over the four sheets;
- the Tab 5 reduction loop;
- the Tab 6 slider loop and scaling loop.

Each method is proved equal to a specification function. The properties are
lemmas about those functions. `Dashboard.Run` runs the whole pipeline and
is proved equal to `Dashboard.DashboardOf`.

Modules:

- `Wrappers`: `Option`.
- `Order`: Python string order, tuple order, and sorted-distinct lists.
- `Sums`: group sums over keyed entries.
- `Rows`: the row model, blank-to-zero filling, and row and column sums.
- `Normalise`: forward-fill.
- `Filters`: the sidebar filter and the dropdown options.
- `Grouping`: the (Directorate, Division) group-by.
- `Plan`: Tab 1.
- `Pivots`: Tabs 2 and 3.
- `Vendors`: the Tab 3 vendor names.
- `Funds`: Tab 4.
- `Planner`: Tab 5.
- `Projections`: Tab 6.
- `Frames`: the in-place column assignments.
- `Dashboard`: the pipeline.

## Model

| member | source | states |
|---|---|---|
| Normalise.FillKeys | focus.py:28-29 | length, text and numeric cells unchanged; a present key is kept; every key becomes the nearest present value at or above its row |
| Frames.Frame.ForwardFillKeys | focus.py:29 | the frame's rows become the forward-filled rows |
| Normalise.NearestMissing | focus.py:29 | a filled key is blank exactly when every cell of its column up to that row is blank (rows before the first value stay blank) |
| Normalise.NearestPresent | focus.py:29 | (about `Nearest`, the value `ffill` gives a cell) a filled key holds v exactly when v stands in some earlier-or-same row with only blanks between it and the row |
| Normalise.FillKeysIdempotent | focus.py:29 | forward-filling a filled sheet changes nothing |
| Dashboard.ForwardFillAll | focus.py:28-29 | the loop over the sheets forward-fills each frame and leaves every frame otherwise untouched |
| Filters.ApplyFilters | focus.py:41-46 | keeps exactly the rows whose three keys each equal the selection or whose selection is "All"; never longer than the sheet |
| Frames.Frame.Filter | focus.py:49-52 | the frame's rows become the rows the selection keeps |
| Filters.FilterAppend | focus.py:41-46 | filtering works row by row and keeps the rows' relative order (filtering a concatenation is concatenating the filtered parts) |
| Filters.FilterMultiplicity | focus.py:41-46 | a kept row appears as often as in the sheet, a dropped row never |
| Filters.FilterAllIsIdentity | focus.py:43-45 | "All" in every dropdown keeps the whole sheet |
| Filters.FilterIdempotent | focus.py:41-46 | filtering twice with the same selection is filtering once |
| Filters.Present | focus.py:32-34 | the listed values are exactly the present cells of the column |
| Filters.Options | focus.py:32-34 | the options are strictly increasing in Python string order and are exactly the values the filled Plan sheet holds |
| Filters.Choices | focus.py:36-38 | each dropdown offers "All" first, then exactly the values the Plan column holds, one entry per option |
| Filters.OptionSelectsRows | focus.py:32-45 | choosing an offered Directorate, with "All" elsewhere, keeps at least one Plan row |
| Order.SortedDistinctSpec | focus.py:32-34 | sorted-distinct yields a strictly sorted list with exactly the input's values |
| Order.SortedUnique | focus.py:32-34 | two strictly sorted lists with the same values are equal, so sorting the distinct values is deterministic |
| Order.StringOrder | focus.py:32-34 | Python's string comparison is a strict total order |
| Grouping.GroupBySum | focus.py:63-65 | every grouped line holds exactly the listed columns, each the column's sum over the rows of the line's (Directorate, Division) pair, blank cells as 0 |
| Grouping.GroupBySumKeys | focus.py:63-65 | one line per distinct (Directorate, Division) pair of the sheet, none for an absent pair, in increasing key order, each with exactly the summed columns |
| Grouping.GroupBySumPreservesTotal | focus.py:63-65 | the lines' total of a column equals the column's sum over every row with both keys: grouping neither loses nor double-counts |
| Sums.SumOverDistinctKeys | focus.py:63-65 | summing group sums over distinct keys that cover every present key gives the sum of every keyed entry |
| Sums.SumWhereAbsent | focus.py:81 | a key no entry carries sums to 0 |
| Rows.FillZero | focus.py:62 | blank cells of the listed columns become 0; present cells, text cells, FundType and the group keys unchanged |
| Frames.Frame.FillMissingWithZero | focus.py:62 | the frame's rows become the zero-filled rows (Tab 4 does the same at focus.py:119) |
| Rows.FillZeroEntries | focus.py:62-65 | filling blanks with 0 changes no group-by sum, since blank cells already sum as 0 |
| Plan.PlanSummary | focus.py:63-66 | one line per grouped line, carrying it; each line's Solvency is the group's summed FY target minus the group's summed per-row fifteen expenses |
| Plan.GroupExpenses | focus.py:63-66 | a grouped line's fifteen expense columns add up to the sum over its rows of each row's fifteen expense cells |
| Plan.PlanSolvencyByRows | focus.py:59-66 | a group's Solvency is the sum over its rows of FY target minus the fifteen expenses, blank cells as 0 |
| Plan.PlanSummaryIgnoresFillZero | focus.py:62-66 | the summary of the zero-filled sheet equals the summary of the sheet |
| Dashboard.PlanTab | focus.py:62-66 | fills the expense blanks in place and returns the grouped plan with Solvency |
| Pivots.PivotOf | focus.py:81-83 | (also Tab 3) no line of an excluded division; each line has exactly one cell per category column, and Total Expenses is the sum of those cells |
| Pivots.WbsPivot | focus.py:81-82 | no line of `pivot_wbs` is a "Subtotal:", "Grand Total:" or "UNKNOWN" division |
| Pivots.PivotShape | focus.py:81-82 | (Tab 3 builds its pivot the same way) categories strictly sorted and exactly those present; one line per present group outside the excluded divisions, in increasing order; every line has a cell for every category; no line of an excluded division |
| Pivots.PivotAbsentCell | focus.py:81 | (also Tab 3) a (group, category) pair with no row shows 0 |
| Pivots.PivotTotal | focus.py:83 | (also Tab 3) Total Expenses equals the sum of the line's category cells and the sum of the amounts of its group's entries |
| Pivots.WbsTotals | focus.py:81-83 | no WBS line is a "Subtotal:", "Grand Total:" or "UNKNOWN" division; Total Expenses is the Cum Comm summed over the group's categorised rows |
| Pivots.Tally | focus.py:100 | `grouped_nl` has exactly one entry per present (Directorate, Division, Category) cell of the sheet, holding that cell's sum, and none for another cell |
| Pivots.NlPivot | focus.py:101-102 | no line of `pivot_nl` is the "UNKNOWN" division |
| Pivots.TallySums | focus.py:100 | pre-aggregating by (Directorate, Division, Category) keeps every cell's sum and the set of cells |
| Pivots.TwoStepPivot | focus.py:100-101 | pivoting the pre-aggregated table equals pivoting the entries directly |
| Pivots.NlTotals | focus.py:100-103 | the Non-Labor pivot equals the direct pivot, has no "UNKNOWN" line, and its Total Expenses is the Cum Comm summed over the group's categorised rows |
| Pivots.KeepDivisions | focus.py:82 | (also Tab 3) keeps exactly the groups whose Division is not excluded |
| Vendors.FillVendors | focus.py:98 | each row is the old row with Vendor Name set to the Category where it was blank, the name otherwise |
| Vendors.RenameVendors | focus.py:99 | each row is the old row with a Vendor Name of "U.S. BANCORP" replaced by "Credit Card Purchase" |
| Frames.Frame.NormaliseVendorNames | focus.py:98-99 | the two assignments in a row leave the frame holding the normalised rows |
| Vendors.NormaliseVendors | focus.py:98-99 | a blank Vendor Name takes the Category; "U.S. BANCORP" becomes "Credit Card Purchase"; other names and every other cell unchanged; the card issuer's name never remains |
| Vendors.NormaliseVendorsIdempotent | focus.py:98-99 | normalising twice is normalising once |
| Vendors.NormaliseVendorsKeepsPivot | focus.py:98-103 | the vendor step leaves the Non-Labor pivot unchanged |
| Dashboard.NonLaborTab | focus.py:98-103 | rewrites the vendor names in place and returns the pivot of the normalised sheet |
| Funds.InputsFilled | focus.py:119 | after `fillna(0)` every Allotment and Commitments cell is present and holds its old value, or 0 where it was blank |
| Funds.WithAvailable | focus.py:119-120 | each row gains Available = Allotment minus Commitments, blank inputs as 0; keys, FundType, text cells and other numeric cells unchanged |
| Frames.Frame.AddAvailable | focus.py:120 | the frame's rows gain the Available column |
| Funds.StatusSheet | focus.py:119-120 | the sheet `grouped_sof` sums: Allotment and Commitments with blanks as 0, Available their difference, keys, FundType and text cells unchanged |
| Funds.AvailableEntries | focus.py:119-120 | on the zero-filled sheet, row by row, the Available entry is the Allotment entry minus the Commitments entry, under the same group |
| Funds.FundsStatus | focus.py:121-123 | each grouped line holds exactly Allotment, Commitments and Available, and its Available is its Allotment minus its Commitments |
| Funds.AvailableSums | focus.py:119-123 | each group's summed Available is its summed Allotment minus its summed Commitments |
| Dashboard.FundsTab | focus.py:119-123 | zero-fills and adds Available in place, leaving the zero-filled sheet with Available, then returns the grouped funds of the original sheet |
| Planner.Reduce | focus.py:143 | the cut removes value × P/100; P=0 keeps the value, P=100 gives 0; for P in [0,100] and a non-negative value the result lies between 0 and the value |
| Planner.CutColumns | focus.py:141-143 | the loop over the zipped columns and sliders yields exactly one cut column per listed column |
| Planner.CutColumnsAt | focus.py:141-143 | with distinct columns, each column holds its own value reduced by its own slider |
| Planner.Adjusted | focus.py:141-143 | a line's cut columns are exactly the five adjustable ones, each its grouped value reduced by the slider zipped with it |
| Planner.NoCutsAdjusted | focus.py:143 | with every slider at 0 the five cut columns add up to the five grouped values |
| Planner.CutsAdjusted | focus.py:143 | sliders in [0,100] on non-negative values keep the five cut columns' sum between 0 and the five grouped values' sum |
| Planner.AdjustedSolvency | focus.py:145 | Adjusted Solvency equals Tab 1's formula (target minus the fifteen expenses) plus the amount the cuts removed from the five adjustable columns |
| Planner.ScenarioPlan | focus.py:140-145 | one scenario line per grouped-plan line, carrying that line unchanged, with exactly the five cut columns |
| Planner.RunScenario | focus.py:140-145 | the reduction loop produces the specified scenario lines and leaves every grouped-plan line unchanged (no compounding) |
| Planner.TotalAdjustedSolvency | focus.py:149 | the total is non-negative when every line is solvent, and negative when every line of a non-empty plan is insolvent |
| Planner.ExpenseSplit | focus.py:141-145 | against the expense list of Tab 1, the ten fixed plus the five adjustable columns sum to the fifteen expense columns |
| Planner.NoCutsKeepSolvency | focus.py:141-145 | with every slider at 0, Adjusted Solvency equals Solvency |
| Planner.CutsBoundSolvency | focus.py:135-145 | cuts in [0,100] on non-negative spending never lower Solvency and raise it by at most the adjustable spending |
| Planner.NoCutsKeepTotal | focus.py:145-149 | with every slider at 0, Total Adjusted Solvency equals the summed Solvency |
| Planner.PlanSummaryLines | focus.py:63-66 | every grouped-plan line has the plan columns and a Solvency of target minus the fifteen expenses |
| Projections.Scale | focus.py:172-173 | the adjustment adds value × P/100; P=-100 gives 0, P=0 the identity, P=100 doubles; P ≥ -100 keeps a non-negative value non-negative |
| Projections.ScaleColumn | focus.py:173 | each row is the old row with the column's cell scaled by `1 + P/100`, a blank cell staying blank |
| Frames.Frame.ScaleProjection | focus.py:173 | the frame's rows become the rows with one column scaled |
| Projections.ScaleColumns | focus.py:171-173 | the loop keeps every row and every row's set of columns |
| Projections.ScaleColumnsStep | focus.py:170-173 | one more turn of the loop: the next column is still present, and scaling it extends the loop's result by that column |
| Projections.ScaleColumnsEffect | focus.py:170-173 | the scaling loop scales each listed column once and leaves every other cell and the keys unchanged |
| Projections.NoAdjustmentIsIdentity | focus.py:170-173 | with every slider at 0 the sheet is unchanged |
| Projections.ProjectedTotals | focus.py:170-173 | after scaling, each projected column sums to its old sum scaled by its slider |
| Projections.TotalOf | focus.py:183-186 | Total is IoBAllotment if present, else SOF Allotment, minus the row's nineteen cost cells; blank exactly when both allotments are |
| Projections.AddTotal | focus.py:183-186 | every row gains its Total, nothing else changes |
| Frames.Frame.AddTotalColumn | focus.py:183-186 | the frame's rows gain the Total column |
| Projections.ColumnSum | focus.py:214 | a column sum with blanks skipped; non-negative when every present cell is |
| Projections.ScaledColumnSum | focus.py:227 | scaling every cell of a column scales the column's sum by the same factor |
| Projections.TotalSolvency | focus.py:214 | total solvency is the sum of the per-row Totals, blank Totals adding nothing |
| Projections.TotalSolvencyByColumns | focus.py:183-186 | when every row has an allotment, total solvency is the summed allotments minus the column sums of the nineteen cost columns |
| Projections.RowsSumByColumns | focus.py:185 | adding up row totals or column totals gives the same grand total |
| Projections.TopBy | focus.py:225-226 | on a non-empty sheet picks a row whose value is at least every row's value, blanks last; nothing on an empty sheet |
| Dashboard.BuildAdjustments | focus.py:165-167 | the slider loop maps exactly the six projected columns, each to its own slider |
| Dashboard.ProjectionsTab | focus.py:170-186 | scales a fresh copy column by column and adds Total, giving the specified projected sheet |
| Dashboard.PreparedKeepsSchema | focus.py:28-52 | forward-filling and filtering keep every column each tab reads |
| Dashboard.Prepare | focus.py:28-52 | four distinct fresh frames holding the filled and filtered sheets, with options read from the filled Plan sheet before filtering |
| Dashboard.Run | focus.py:12-231 | the whole pipeline yields exactly the report the specification function defines |

## Left out

- The Streamlit UI is not modelled: the uploader, dropdowns, sliders, tabs, table styling, download button and CSV export. The dropdown and slider positions are parameters.
- Excel parsing and header stripping are not modelled. The sheets arrive already parsed, with stripped headers.
- The matplotlib and plotly charts, the `highlight_projected` styler and the narrative text are rendering only.
- Floating point is not modelled. Money is exact `real`, and NaN is `None`.
- NaN propagation is modelled only where it shows:
  - a scaled blank cell stays blank;
  - Total is blank when both allotments are;
  - sums skip blanks.
- Columns that the source reads but a sheet lacks would raise KeyError. The model makes their presence a precondition (`Dashboard.WellFormed`) instead of an error value.
- Projections.TopBy: which of several tied rows the unstable sort puts first is not modelled. Only "is a maximum" is promised. When every value is blank, the row picked is unspecified.
- Projections.TopBy: an empty Actuals-ScenarioSolvency sheet makes the source's `iloc[0]` raise. The model returns `None`.
- Planner.RunScenario: the `if col in scenario_plan.columns` test is always true, because the grouped plan always has the five columns. The model drops it. The cut columns are kept in a map keyed by the original column name, not as new `<col> (Adj)` columns.
- The slider ranges ([0,100] in Tab 5, [-100,100] in Tab 6) are not preconditions of the operations. Only the bound lemmas assume them.
- Tab 6 parses its sheet afresh, so the model neither forward-fills nor filters it. This follows the source.
- The vendor normalisation changes no displayed figure, because no table or chart reads Vendor Name (`Vendors.NormaliseVendorsKeepsPivot`).
- Pandas drops group keys that are NaN: rows with a blank Directorate, Division or Category belong to no group. Index alignment of the filter masks is not modelled; the masks are taken row by row.
