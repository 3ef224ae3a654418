/** Tab 5, "Scenario Planner" (focus.py:133-150): five sliders cut the
    Contracts, Travel, Training, Supplies and Equip columns of the grouped
    Plan by a percentage, and Adjusted Solvency is recomputed from the ten
    other expense columns and the five cut ones. Every run starts again from
    `grouped_plan`, so cuts never compound. */
module Planner {
  import opened Rows
  import opened Grouping
  import opened Plan

  /** The slider positions, each in [0, 100] on the page. */
  datatype Reductions = Reductions(contracts: int, travel: int, training: int, supplies: int, equipment: int)

  predicate InRange(cuts: Reductions) {
    && 0 <= cuts.contracts <= 100 && 0 <= cuts.travel <= 100 && 0 <= cuts.training <= 100
    && 0 <= cuts.supplies <= 100 && 0 <= cuts.equipment <= 100
  }

  /** The columns the sliders cut, in the order they are zipped with the sliders. */
  const AdjustableCols: seq<string> := ["Contracts", "Travel", "Training", "Supplies", "Equip"]

  /** The expense columns no slider touches. */
  const FixedCols: seq<string> :=
    ["TOTAL LABOR & OH", "Recruits Labor", "Recruits OH", "Recruits Lab & OH",
     "OGAs", "IDX", "DIR-IND", "HRPP", "Other", "Shop"]

  /** The slider values, zipped with AdjustableCols. */
  function Sliders(cuts: Reductions): seq<int> {
    [cuts.contracts, cuts.travel, cuts.training, cuts.supplies, cuts.equipment]
  }

  /** `value * (1 - reduction / 100)`. */
  function Reduce(v: real, p: int): (w: real)
    ensures v - w == v * (p as real / 100.0)
    ensures p == 0 ==> w == v
    ensures p == 100 ==> w == 0.0
    ensures 0 <= p <= 100 && 0.0 <= v ==> 0.0 <= w <= v
  {
    v * (1.0 - p as real / 100.0)
  }

  /** A line of `scenario_plan`: the untouched grouped Plan line, the
      `<col> (Adj)` columns keyed by their column, and Adjusted Solvency. */
  datatype ScenarioLine = ScenarioLine(line: PlanLine, adjusted: map<string, real>, adjustedSolvency: real)

  /** A grouped Plan line carries the target and every expense column. */
  predicate HasPlanCols(line: PlanLine) {
    forall c :: c in PlanCols ==> c in line.group.sums
  }

  /** The loop of focus.py:141-143 run over the zipped columns and sliders:
      each column reduced by its own slider. */
  function CutColumns(sums: map<string, real>, cols: seq<string>, pcts: seq<int>): (cut: map<string, real>)
    requires |pcts| == |cols|
    requires forall c :: c in cols ==> c in sums
    ensures cut.Keys == set c | c in cols
    decreases |cols|
  {
    if cols == [] then map[]
    else
      var k := |cols| - 1;
      assert forall c :: c in cols[..k] ==> c in cols;
      CutColumns(sums, cols[..k], pcts[..k])[cols[k] := Reduce(sums[cols[k]], pcts[k])]
  }

  /** With distinct columns, each column holds the cut of its own slider. */
  lemma {:induction false} CutColumnsAt(sums: map<string, real>, cols: seq<string>, pcts: seq<int>, j: nat)
    requires |pcts| == |cols| && j < |cols|
    requires forall c :: c in cols ==> c in sums
    requires forall a, b :: 0 <= a < b < |cols| ==> cols[a] != cols[b]
    ensures CutColumns(sums, cols, pcts)[cols[j]] == Reduce(sums[cols[j]], pcts[j])
    decreases |cols|
  {
    var k := |cols| - 1;
    var init, rest := cols[..k], pcts[..k];
    assert cols[..k + 1] == cols && pcts[..k + 1] == pcts;
    CutColumnsStep(sums, cols, pcts, k);
    if j < k {
      assert forall a, b :: 0 <= a < b < |init| ==> init[a] != init[b] by {
        forall a, b | 0 <= a < b < |init| ensures init[a] != init[b] {
          assert init[a] == cols[a] && init[b] == cols[b];
        }
      }
      assert forall c :: c in init ==> c in cols;
      CutColumnsAt(sums, init, rest, j);
      assert init[j] == cols[j] && rest[j] == pcts[j];
      assert cols[j] != cols[k];
    }
  }

  /** One more turn of the loop extends the cut by the next column. */
  lemma CutColumnsStep(sums: map<string, real>, cols: seq<string>, pcts: seq<int>, k: nat)
    requires |pcts| == |cols| && k < |cols|
    requires forall c :: c in cols ==> c in sums
    ensures forall c :: c in cols[..k + 1] ==> c in sums
    ensures CutColumns(sums, cols[..k + 1], pcts[..k + 1]) ==
            CutColumns(sums, cols[..k], pcts[..k])[cols[k] := Reduce(sums[cols[k]], pcts[k])]
  {
    assert forall c :: c in cols[..k + 1] ==> c in cols;
    assert cols[..k + 1][..k] == cols[..k] && pcts[..k + 1][..k] == pcts[..k];
  }

  lemma AdjustableDistinct()
    ensures forall a, b :: 0 <= a < b < |AdjustableCols| ==> AdjustableCols[a] != AdjustableCols[b]
  {
  }

  lemma AdjustedCuts(sums: map<string, real>, cuts: Reductions)
    requires forall c :: c in AdjustableCols ==> c in sums
    ensures forall j :: 0 <= j < |AdjustableCols| ==>
              CutColumns(sums, AdjustableCols, Sliders(cuts))[AdjustableCols[j]] ==
              Reduce(sums[AdjustableCols[j]], Sliders(cuts)[j])
  {
    AdjustableDistinct();
    forall j | 0 <= j < |AdjustableCols|
      ensures CutColumns(sums, AdjustableCols, Sliders(cuts))[AdjustableCols[j]] ==
              Reduce(sums[AdjustableCols[j]], Sliders(cuts)[j])
    {
      CutColumnsAt(sums, AdjustableCols, Sliders(cuts), j);
    }
  }

  /** The cut columns of one line: each adjustable column reduced by the
      slider it is zipped with. */
  function Adjusted(line: PlanLine, cuts: Reductions): (adjusted: map<string, real>)
    requires HasPlanCols(line)
    ensures adjusted.Keys == set c | c in AdjustableCols
    ensures forall c :: c in AdjustableCols ==> c in line.group.sums
    ensures forall j :: 0 <= j < |AdjustableCols| ==>
              adjusted[AdjustableCols[j]] == Reduce(line.group.sums[AdjustableCols[j]], Sliders(cuts)[j])
  {
    assert forall c :: c in AdjustableCols ==> c in PlanCols;
    AdjustedCuts(line.group.sums, cuts);
    CutColumns(line.group.sums, AdjustableCols, Sliders(cuts))
  }

  /** The target minus the ten fixed columns and the five cut ones
      (focus.py:145). Because the fixed and the adjustable columns split the
      fifteen expense columns of Tab 1, this is Tab 1's Solvency formula plus
      the amount the cuts removed. */
  function AdjustedSolvency(line: PlanLine, adjusted: map<string, real>): (r: real)
    requires HasPlanCols(line)
    requires forall c :: c in AdjustableCols ==> c in adjusted
    ensures forall c :: c in ExpenseCols ==> c in line.group.sums
    ensures forall c :: c in AdjustableCols ==> c in line.group.sums
    ensures r == (line.group.sums[TargetCol] - SumCols(ExpenseCols, line.group.sums))
                 + (SumCols(AdjustableCols, line.group.sums) - SumCols(AdjustableCols, adjusted))
  {
    assert forall c :: c in ExpenseCols ==> c in PlanCols;
    ExpenseSplit(line.group.sums);
    line.group.sums[TargetCol] - (SumCols(FixedCols, line.group.sums) + SumCols(AdjustableCols, adjusted))
  }

  function ScenarioOf(line: PlanLine, cuts: Reductions): ScenarioLine
    requires HasPlanCols(line)
  {
    var adjusted := Adjusted(line, cuts);
    ScenarioLine(line, adjusted, AdjustedSolvency(line, adjusted))
  }

  /** `scenario_plan`, one line per line of `grouped_plan`. */
  function ScenarioPlan(plan: seq<PlanLine>, cuts: Reductions): (lines: seq<ScenarioLine>)
    requires forall i :: 0 <= i < |plan| ==> HasPlanCols(plan[i])
    ensures |lines| == |plan|
    ensures forall i :: 0 <= i < |plan| ==>
              && lines[i].line == plan[i]
              && lines[i].adjusted.Keys == set c | c in AdjustableCols
  {
    seq(|plan|, i requires 0 <= i < |plan| => ScenarioOf(plan[i], cuts))
  }

  /** Total Adjusted Solvency (focus.py:149). */
  function TotalAdjustedSolvency(lines: seq<ScenarioLine>): (total: real)
    ensures (forall i :: 0 <= i < |lines| ==> 0.0 <= lines[i].adjustedSolvency) ==> 0.0 <= total
    ensures (forall i :: 0 <= i < |lines| ==> lines[i].adjustedSolvency < 0.0) && lines != [] ==> total < 0.0
  {
    if lines == [] then 0.0 else lines[0].adjustedSolvency + TotalAdjustedSolvency(lines[1..])
  }

  /** The loop of focus.py:140-145: copy `grouped_plan`, add one cut column per
      slider, then Adjusted Solvency. The copy is never written back, so the
      grouped Plan lines come out unchanged and the cuts do not compound. */
  method RunScenario(plan: seq<PlanLine>, cuts: Reductions) returns (lines: seq<ScenarioLine>)
    requires forall i :: 0 <= i < |plan| ==> HasPlanCols(plan[i])
    ensures lines == ScenarioPlan(plan, cuts)
    ensures forall i :: 0 <= i < |plan| ==> lines[i].line == plan[i]
  {
    var cols := AdjustableCols;
    var pcts := Sliders(cuts);
    assert forall c :: c in cols ==> c in PlanCols;
    var adjusted: seq<map<string, real>> := seq(|plan|, i => map[]);
    for k := 0 to |cols|
      invariant |adjusted| == |plan|
      invariant forall i :: 0 <= i < |plan| ==> adjusted[i] == CutColumns(plan[i].group.sums, cols[..k], pcts[..k])
    {
      var col, p := cols[k], pcts[k];
      forall i | 0 <= i < |plan|
        ensures CutColumns(plan[i].group.sums, cols[..k + 1], pcts[..k + 1]) ==
                CutColumns(plan[i].group.sums, cols[..k], pcts[..k])[col := Reduce(plan[i].group.sums[col], p)]
      {
        CutColumnsStep(plan[i].group.sums, cols, pcts, k);
      }
      adjusted := seq(|plan|, i requires 0 <= i < |plan| =>
        adjusted[i][col := Reduce(plan[i].group.sums[col], p)]);
    }
    assert cols[..|cols|] == cols && pcts[..|pcts|] == pcts;
    lines := seq(|plan|, i requires 0 <= i < |plan| =>
      ScenarioLine(plan[i], adjusted[i], AdjustedSolvency(plan[i], adjusted[i])));
  }

  const LaborCols: seq<string> := ["TOTAL LABOR & OH", "Recruits Labor", "Recruits OH", "Recruits Lab & OH"]
  const TravelTrainingSupplies: seq<string> := ["Travel", "Training", "Supplies"]
  const TailCols: seq<string> := ["IDX", "DIR-IND", "HRPP", "Other", "Shop"]

  /** The ten fixed columns and the five adjustable ones are exactly the
      fifteen expense columns of Tab 1, each once, so their sums add up to
      the expense total. */
  lemma ExpenseSplit(m: map<string, real>)
    requires forall c :: c in ExpenseCols ==> c in m
    ensures forall c :: c in FixedCols + AdjustableCols ==> c in m
    ensures SumCols(ExpenseCols, m) == SumCols(FixedCols, m) + SumCols(AdjustableCols, m)
  {
    var l, t, r := LaborCols, TravelTrainingSupplies, TailCols;
    assert ExpenseCols == l + (t + (["Contracts"] + (["OGAs"] + (["Equip"] + r))));
    assert FixedCols == l + (["OGAs"] + r);
    assert AdjustableCols == ["Contracts"] + (t + ["Equip"]);
    SumColsAppend(l, t + (["Contracts"] + (["OGAs"] + (["Equip"] + r))), m);
    SumColsAppend(t, ["Contracts"] + (["OGAs"] + (["Equip"] + r)), m);
    SumColsAppend(["Contracts"], ["OGAs"] + (["Equip"] + r), m);
    SumColsAppend(["OGAs"], ["Equip"] + r, m);
    SumColsAppend(["Equip"], r, m);
    SumColsAppend(l, ["OGAs"] + r, m);
    SumColsAppend(["OGAs"], r, m);
    SumColsAppend(["Contracts"], t + ["Equip"], m);
    SumColsAppend(t, ["Equip"], m);
  }

  /** A grouped Plan line whose Solvency is its target minus its fifteen expenses. */
  predicate SolvencyConsistent(line: PlanLine)
    requires HasPlanCols(line)
  {
    assert forall c :: c in ExpenseCols ==> c in PlanCols;
    line.solvency == line.group.sums[TargetCol] - SumCols(ExpenseCols, line.group.sums)
  }

  lemma PlanSummaryLines(rows: seq<Row>)
    requires HasNums(rows, PlanCols)
    ensures forall i :: 0 <= i < |PlanSummary(rows)| ==>
              HasPlanCols(PlanSummary(rows)[i]) && SolvencyConsistent(PlanSummary(rows)[i])
  {
    forall i | 0 <= i < |PlanSummary(rows)|
      ensures HasPlanCols(PlanSummary(rows)[i])
    {
      GroupBySumKeys(rows, PlanCols);
    }
  }

  lemma {:induction false} SumColsSame(cols: seq<string>, a: map<string, real>, b: map<string, real>)
    requires forall j :: 0 <= j < |cols| ==> cols[j] in a && cols[j] in b && a[cols[j]] == b[cols[j]]
    ensures forall c :: c in cols ==> c in a && c in b
    ensures SumCols(cols, a) == SumCols(cols, b)
  {
    if cols != [] {
      SumColsSame(cols[1..], a, b);
    }
  }

  lemma {:induction false} SumColsBounds(cols: seq<string>, a: map<string, real>, b: map<string, real>)
    requires forall j :: 0 <= j < |cols| ==> cols[j] in a && cols[j] in b && 0.0 <= b[cols[j]] <= a[cols[j]]
    ensures forall c :: c in cols ==> c in a && c in b
    ensures 0.0 <= SumCols(cols, b) <= SumCols(cols, a)
  {
    if cols != [] {
      SumColsBounds(cols[1..], a, b);
    }
  }

  /** With every slider at 0 no column is cut. */
  lemma NoCutsAdjusted(line: PlanLine)
    requires HasPlanCols(line)
    ensures var adjusted := Adjusted(line, Reductions(0, 0, 0, 0, 0));
            && (forall c :: c in AdjustableCols ==> c in line.group.sums && c in adjusted)
            && SumCols(AdjustableCols, adjusted) == SumCols(AdjustableCols, line.group.sums)
  {
    var cuts := Reductions(0, 0, 0, 0, 0);
    forall j | 0 <= j < |AdjustableCols| ensures Sliders(cuts)[j] == 0 {
    }
    SumColsSame(AdjustableCols, line.group.sums, Adjusted(line, cuts));
  }

  /** Cuts of 0 to 100 percent keep a non-negative column between 0 and its value. */
  lemma CutsAdjusted(line: PlanLine, cuts: Reductions)
    requires HasPlanCols(line) && InRange(cuts)
    requires forall c :: c in AdjustableCols ==> 0.0 <= line.group.sums[c]
    ensures var adjusted := Adjusted(line, cuts);
            && (forall c :: c in AdjustableCols ==> c in line.group.sums && c in adjusted)
            && 0.0 <= SumCols(AdjustableCols, adjusted) <= SumCols(AdjustableCols, line.group.sums)
  {
    forall j | 0 <= j < |AdjustableCols| ensures 0 <= Sliders(cuts)[j] <= 100 {
    }
    SumColsBounds(AdjustableCols, line.group.sums, Adjusted(line, cuts));
  }

  /** With every slider at 0 the scenario reproduces Tab 1's Solvency. */
  lemma NoCutsKeepSolvency(line: PlanLine)
    requires HasPlanCols(line) && SolvencyConsistent(line)
    ensures ScenarioOf(line, Reductions(0, 0, 0, 0, 0)).adjustedSolvency == line.solvency
  {
    var cuts := Reductions(0, 0, 0, 0, 0);
    NoCutsAdjusted(line);
    assert ScenarioOf(line, cuts).adjustedSolvency == AdjustedSolvency(line, Adjusted(line, cuts));
  }

  /** Cuts of 0 to 100 percent on non-negative spending never lower solvency,
      and raise it by at most the whole adjustable spending. */
  lemma CutsBoundSolvency(line: PlanLine, cuts: Reductions)
    requires HasPlanCols(line) && SolvencyConsistent(line) && InRange(cuts)
    requires forall c :: c in AdjustableCols ==> 0.0 <= line.group.sums[c]
    ensures forall c :: c in AdjustableCols ==> c in line.group.sums
    ensures line.solvency <= ScenarioOf(line, cuts).adjustedSolvency
                          <= line.solvency + SumCols(AdjustableCols, line.group.sums)
  {
    var adjusted := Adjusted(line, cuts);
    CutsAdjusted(line, cuts);
    assert ScenarioOf(line, cuts).adjustedSolvency == AdjustedSolvency(line, adjusted);
  }

  /** The Solvency column of Tab 1, summed. */
  function PlanSolvencyTotal(plan: seq<PlanLine>): real {
    if plan == [] then 0.0 else plan[0].solvency + PlanSolvencyTotal(plan[1..])
  }

  /** With every slider at 0 the Total Adjusted Solvency is Tab 1's total Solvency. */
  lemma {:induction false} NoCutsKeepTotal(plan: seq<PlanLine>)
    requires forall i :: 0 <= i < |plan| ==> HasPlanCols(plan[i]) && SolvencyConsistent(plan[i])
    ensures TotalAdjustedSolvency(ScenarioPlan(plan, Reductions(0, 0, 0, 0, 0))) == PlanSolvencyTotal(plan)
  {
    if plan != [] {
      var cuts := Reductions(0, 0, 0, 0, 0);
      assert ScenarioPlan(plan, cuts)[1..] == ScenarioPlan(plan[1..], cuts);
      NoCutsKeepSolvency(plan[0]);
      NoCutsKeepTotal(plan[1..]);
    }
  }
}
