/** The whole dashboard once a workbook is uploaded (focus.py:12-231): the
    four sheets are forward-filled, the dropdown options are read off the Plan
    sheet, the sheets are filtered, and each tab computes its table. The
    dropdown and slider positions are parameters. */
module Dashboard {
  import opened Wrappers
  import opened Rows
  import opened Normalise
  import opened Filters
  import opened Grouping
  import opened Plan
  import opened Pivots
  import opened Vendors
  import opened Funds
  import opened Planner
  import opened Projections
  import opened Frames

  /** The five parsed sheets: IOB Recap ReportPlan, WBS Category Breakout,
      Non Labor Detail, Status of Funds and Actuals-ScenarioSolvency. */
  datatype Sheets = Sheets(plan: seq<Row>, wbs: seq<Row>, nl: seq<Row>, sof: seq<Row>, scenario: seq<Row>)

  predicate PlanSheet(rows: seq<Row>) {
    HasNums(rows, PlanCols)
  }

  predicate NonLaborSheet(rows: seq<Row>) {
    PivotSheet(rows) && VendorSheet(rows)
  }

  predicate FundsSheet(rows: seq<Row>) {
    HasNums(rows, InputCols)
  }

  /** Every sheet has the columns its tab reads (pandas raises KeyError otherwise). */
  predicate WellFormed(s: Sheets) {
    && PlanSheet(s.plan)
    && PivotSheet(s.wbs)
    && NonLaborSheet(s.nl)
    && FundsSheet(s.sof)
    && ScenarioSheet(s.scenario)
  }

  /** Everything the dashboard shows, as values. */
  datatype Report = Report(
    directorates: seq<string>, divisions: seq<string>, fundTypes: seq<string>,
    plan: seq<PlanLine>,
    wbs: Pivot,
    nl: Pivot,
    funds: seq<Grouped>,
    scenario: seq<ScenarioLine>, totalAdjustedSolvency: real,
    projections: seq<Row>, totalSolvency: real,
    insights: Insights)

  /** A sheet after the forward-fill and the sidebar filter. */
  function Prepared(rows: seq<Row>, sel: Selection): seq<Row> {
    ApplyFilters(FillKeys(rows), sel)
  }

  /** Each prepared row carries the columns of some row of the sheet. */
  lemma PreparedRows(rows: seq<Row>, sel: Selection)
    ensures forall i :: 0 <= i < |Prepared(rows, sel)| ==>
              exists j :: 0 <= j < |rows| && Prepared(rows, sel)[i].text == rows[j].text &&
                          Prepared(rows, sel)[i].num == rows[j].num
  {
    var filled := FillKeys(rows);
    var p := Prepared(rows, sel);
    forall i | 0 <= i < |p|
      ensures exists j :: 0 <= j < |rows| && p[i].text == rows[j].text && p[i].num == rows[j].num
    {
      assert p[i] in ApplyFilters(filled, sel);
      var j :| 0 <= j < |filled| && filled[j] == p[i];
      assert p[i].text == rows[j].text && p[i].num == rows[j].num;
    }
  }

  /** Forward-filling and filtering keep every column a sheet has. */
  lemma PreparedKeepsSchema(s: Sheets, sel: Selection)
    requires WellFormed(s)
    ensures PlanSheet(Prepared(s.plan, sel))
    ensures PivotSheet(Prepared(s.wbs, sel))
    ensures NonLaborSheet(Prepared(s.nl, sel))
    ensures FundsSheet(Prepared(s.sof, sel))
  {
    PreparedRows(s.plan, sel);
    PreparedRows(s.wbs, sel);
    PreparedRows(s.nl, sel);
    PreparedRows(s.sof, sel);
  }

  /** The slider position of each of the six projected columns. */
  function AdjustmentsOf(sliders: seq<int>): map<string, int>
    requires |sliders| == |ProjectedCols|
  {
    ProjectedAreCosts();
    map i | 0 <= i < |ProjectedCols| :: ProjectedCols[i] := sliders[i]
  }

  /** The Actuals-ScenarioSolvency sheet after the scaling loop and the `Total` column. */
  function Projected(scenario: seq<Row>, sliders: seq<int>): (p: seq<Row>)
    requires ScenarioSheet(scenario) && |sliders| == |ProjectedCols|
    ensures ScenarioSheet(p) && HasNum(p, TotalCol)
  {
    ProjectedAreCosts();
    HasNumsSubset(scenario, CostCols, ProjectedCols);
    AddTotal(ScaleColumns(scenario, ProjectedCols, AdjustmentsOf(sliders)))
  }

  /** Tab 1's `grouped_plan`. */
  function PlanLines(s: Sheets, sel: Selection): (lines: seq<PlanLine>)
    requires WellFormed(s)
    ensures forall i :: 0 <= i < |lines| ==> HasPlanCols(lines[i]) && SolvencyConsistent(lines[i])
  {
    PreparedKeepsSchema(s, sel);
    PlanSummaryLines(Prepared(s.plan, sel));
    PlanSummary(Prepared(s.plan, sel))
  }

  /** Tab 6's insights: the top labor and contracts rows and the projected column sums. */
  datatype Insights = Insights(topLabor: Option<nat>, topContracts: Option<nat>, projectedTotals: map<string, real>)

  function InsightsOf(projected: seq<Row>): Insights
    requires ScenarioSheet(projected)
  {
    ScenarioColumns(projected);
    Insights(TopBy(projected, LaborCol), TopBy(projected, ContractsCol),
             map c | c in ProjectedCols :: ColumnSum(projected, c))
  }

  /** The dashboard as a function of the sheets and of the widget positions. */
  function DashboardOf(s: Sheets, sel: Selection, cuts: Reductions, sliders: seq<int>): Report
    requires WellFormed(s) && |sliders| == |ProjectedCols|
  {
    PreparedKeepsSchema(s, sel);
    var filled := FillKeys(s.plan);
    var plan := PlanLines(s, sel);
    var scenario := ScenarioPlan(plan, cuts);
    var projected := Projected(s.scenario, sliders);
    Report(
      Choices(filled, Directorate), Choices(filled, Division), Choices(filled, FundType),
      plan,
      WbsPivot(Prepared(s.wbs, sel)),
      NlPivot(NormaliseVendors(Prepared(s.nl, sel))),
      FundsStatus(Prepared(s.sof, sel)),
      scenario, TotalAdjustedSolvency(scenario),
      projected, ColumnSum(projected, TotalCol),
      InsightsOf(projected))
  }

  /** Tab 1: fill the blank expenses of the Plan sheet with 0, then group. */
  method PlanTab(f: Frame) returns (lines: seq<PlanLine>)
    requires HasNums(f.rows, PlanCols)
    modifies f
    ensures lines == PlanSummary(old(f.rows))
    ensures f.rows == FillZero(old(f.rows), ExpenseCols)
  {
    PlanSummaryIgnoresFillZero(f.rows);
    f.FillMissingWithZero(ExpenseCols);
    lines := PlanSummary(f.rows);
  }

  /** Tab 3: normalise the vendor names in place, then pivot. */
  method NonLaborTab(f: Frame) returns (pivot: Pivot)
    requires VendorSheet(f.rows) && PivotSheet(f.rows)
    modifies f
    ensures pivot == NlPivot(NormaliseVendors(old(f.rows)))
    ensures f.rows == NormaliseVendors(old(f.rows))
  {
    NormaliseVendorsKeepsPivot(f.rows);
    f.NormaliseVendorNames();
    pivot := NlPivot(f.rows);
  }

  /** Tab 4: fill the blank inputs with 0, add Available, then group. */
  method FundsTab(f: Frame) returns (lines: seq<Grouped>)
    requires HasNums(f.rows, InputCols)
    modifies f
    ensures lines == FundsStatus(old(f.rows))
    ensures f.rows == StatusSheet(old(f.rows))
  {
    ghost var ready := StatusSheet(f.rows);
    InputsFilled(f.rows);
    f.FillMissingWithZero(InputCols);
    f.AddAvailable();
    assert f.rows == ready;
    lines := GroupBySum(f.rows, FundCols);
  }

  /** Tab 6's slider loop (focus.py:165-167): one entry per projected column. */
  method BuildAdjustments(sliders: seq<int>) returns (adjustments: map<string, int>)
    requires |sliders| == |ProjectedCols|
    ensures adjustments == AdjustmentsOf(sliders)
    ensures adjustments.Keys == set c | c in ProjectedCols
    ensures forall i :: 0 <= i < |ProjectedCols| ==> adjustments[ProjectedCols[i]] == sliders[i]
  {
    ProjectedAreCosts();
    adjustments := map[];
    for k := 0 to |ProjectedCols|
      invariant adjustments.Keys == set i | 0 <= i < k :: ProjectedCols[i]
      invariant forall i :: 0 <= i < k ==> adjustments[ProjectedCols[i]] == sliders[i]
    {
      adjustments := adjustments[ProjectedCols[k] := sliders[k]];
    }
    assert adjustments.Keys == AdjustmentsOf(sliders).Keys;
  }

  /** Tab 6: scale a fresh copy of the sheet column by column, then add `Total`. */
  method ProjectionsTab(scenario: seq<Row>, sliders: seq<int>) returns (projected: seq<Row>)
    requires ScenarioSheet(scenario) && |sliders| == |ProjectedCols|
    ensures projected == Projected(scenario, sliders)
  {
    var adjustments := BuildAdjustments(sliders);
    ProjectedAreCosts();
    HasNumsSubset(scenario, CostCols, ProjectedCols);
    var f := new Frame(scenario);
    for k := 0 to |ProjectedCols|
      invariant HasNums(scenario, ProjectedCols[..k])
      invariant f.rows == ScaleColumns(scenario, ProjectedCols[..k], adjustments)
    {
      var col := ProjectedCols[k];
      ScaleColumnsStep(scenario, ProjectedCols, k, adjustments);
      f.ScaleProjection(col, adjustments[col]);
    }
    assert ProjectedCols[..|ProjectedCols|] == ProjectedCols;
    f.AddTotalColumn();
    projected := f.rows;
  }

  /** The loop of focus.py:28-29: each sheet's hierarchy columns forward-filled in place. */
  method ForwardFillAll(frames: seq<Frame>)
    requires forall i, j :: 0 <= i < j < |frames| ==> frames[i] != frames[j]
    modifies set f | f in frames
    ensures forall j :: 0 <= j < |frames| ==> frames[j].rows == FillKeys(old(frames[j].rows))
  {
    for k := 0 to |frames|
      invariant forall j :: 0 <= j < |frames| ==>
                  frames[j].rows == if j < k then FillKeys(old(frames[j].rows)) else old(frames[j].rows)
    {
      frames[k].ForwardFillKeys();
    }
  }

  /** The forward-fill loop over the four sheets, the option lists read off
      the filled Plan sheet, then the filters. */
  method Prepare(s: Sheets, sel: Selection)
    returns (plan: Frame, wbs: Frame, nl: Frame, sof: Frame, options: (seq<string>, seq<string>, seq<string>))
    ensures fresh(plan) && fresh(wbs) && fresh(nl) && fresh(sof)
    ensures plan != wbs && plan != nl && plan != sof && wbs != nl && wbs != sof && nl != sof
    ensures plan.rows == Prepared(s.plan, sel) && wbs.rows == Prepared(s.wbs, sel)
    ensures nl.rows == Prepared(s.nl, sel) && sof.rows == Prepared(s.sof, sel)
    ensures options == (Choices(FillKeys(s.plan), Directorate), Choices(FillKeys(s.plan), Division),
                        Choices(FillKeys(s.plan), FundType))
  {
    plan := new Frame(s.plan);
    wbs := new Frame(s.wbs);
    nl := new Frame(s.nl);
    sof := new Frame(s.sof);
    var frames := [plan, wbs, nl, sof];
    ForwardFillAll(frames);
    assert frames[0] == plan && frames[1] == wbs && frames[2] == nl && frames[3] == sof;
    options := (Choices(plan.rows, Directorate), Choices(plan.rows, Division), Choices(plan.rows, FundType));
    plan.Filter(sel);
    wbs.Filter(sel);
    nl.Filter(sel);
    sof.Filter(sel);
  }

  /** The dashboard: the prepared sheets, then the six tabs. */
  method Run(s: Sheets, sel: Selection, cuts: Reductions, sliders: seq<int>) returns (report: Report)
    requires WellFormed(s) && |sliders| == |ProjectedCols|
    ensures report == DashboardOf(s, sel, cuts, sliders)
  {
    var plan, wbs, nl, sof, options := Prepare(s, sel);
    PreparedKeepsSchema(s, sel);

    var planLines := PlanTab(plan);
    assert planLines == PlanLines(s, sel);
    var wbsPivot := WbsPivot(wbs.rows);
    var nlPivot := NonLaborTab(nl);
    var funds := FundsTab(sof);

    var scenario := RunScenario(planLines, cuts);
    var totalAdjusted := TotalAdjustedSolvency(scenario);

    var projected := ProjectionsTab(s.scenario, sliders);
    var totalSolvency := ColumnSum(projected, TotalCol);
    var insights := InsightsOf(projected);
    report := Report(options.0, options.1, options.2, planLines, wbsPivot, nlPivot, funds,
                     scenario, totalAdjusted, projected, totalSolvency, insights);
  }
}
