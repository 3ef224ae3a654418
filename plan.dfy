/** Tab 1, "FY25 Plan" (focus.py:57-66): the Plan sheet grouped by
    (Directorate, Division), with a Solvency column: the summed FY target
    minus the summed fifteen expense columns. */
module Plan {
  import opened Wrappers
  import opened Rows
  import opened Sums
  import opened Grouping

  const TargetCol: string := "FY TARGET $ 100%"

  /** The fifteen expense columns, in the order the source lists them. */
  const ExpenseCols: seq<string> :=
    ["TOTAL LABOR & OH", "Recruits Labor", "Recruits OH", "Recruits Lab & OH",
     "Travel", "Training", "Supplies", "Contracts", "OGAs", "Equip", "IDX",
     "DIR-IND", "HRPP", "Other", "Shop"]

  /** The columns the aggregation sums. */
  const PlanCols: seq<string> := [TargetCol] + ExpenseCols

  /** A line of `grouped_plan`: the summed columns and the Solvency column. */
  datatype PlanLine = PlanLine(group: Grouped, solvency: real)

  /** `grouped_plan` with its Solvency column. */
  function PlanSummary(rows: seq<Row>): (lines: seq<PlanLine>)
    requires HasNums(rows, PlanCols)
    ensures |lines| == |GroupBySum(rows, PlanCols)|
    ensures forall i :: 0 <= i < |lines| ==> lines[i].group == GroupBySum(rows, PlanCols)[i]
    ensures HasNums(rows, ExpenseCols)
    ensures forall i :: 0 <= i < |lines| ==>
              lines[i].solvency == SumWhere(PairEntries(rows, TargetCol), lines[i].group.key)
                                   - SumWhere(RowSumEntries(rows, ExpenseCols), lines[i].group.key)
  {
    var gs := GroupBySum(rows, PlanCols);
    HasNumsSubset(rows, PlanCols, ExpenseCols);
    GroupExpenses(rows, gs);
    seq(|gs|, i requires 0 <= i < |gs| =>
      PlanLine(gs[i], gs[i].sums[TargetCol] - SumCols(ExpenseCols, gs[i].sums)))
  }

  /** A Plan row's own contribution to its group's Solvency. */
  function RowSolvency(r: Row): real
    requires forall c :: c in PlanCols ==> c in r.num
  {
    OrZero(r.num[TargetCol]) - RowSum(r, ExpenseCols)
  }

  function RowSumEntries(rows: seq<Row>, cols: seq<string>): seq<(Option<Pair>, real)>
    requires HasNums(rows, cols)
  {
    seq(|rows|, j requires 0 <= j < |rows| => (GroupKey(rows[j]), RowSum(rows[j], cols)))
  }

  function SolvencyEntries(rows: seq<Row>): seq<(Option<Pair>, real)>
    requires HasNums(rows, PlanCols)
  {
    seq(|rows|, j requires 0 <= j < |rows| => (GroupKey(rows[j]), RowSolvency(rows[j])))
  }

  lemma {:induction false} SumWhereOfZeros(es: seq<(Option<Pair>, real)>, g: Pair)
    requires forall j :: 0 <= j < |es| ==> es[j].1 == 0.0
    ensures SumWhere(es, g) == 0.0
  {
    if es != [] {
      SumWhereOfZeros(es[1..], g);
    }
  }

  /** Summing columns of a group line equals summing, over the group's rows,
      each row's own total of those columns. */
  lemma {:induction false} SumColsOfGroup(rows: seq<Row>, cols: seq<string>, sums: map<string, real>, g: Pair)
    requires HasNums(rows, cols)
    requires forall c :: c in cols ==> c in sums && sums[c] == SumWhere(PairEntries(rows, c), g)
    ensures SumCols(cols, sums) == SumWhere(RowSumEntries(rows, cols), g)
  {
    if cols == [] {
      SumWhereOfZeros(RowSumEntries(rows, cols), g);
    } else {
      HasNumsSubset(rows, cols, cols[1..]);
      SumColsOfGroup(rows, cols[1..], sums, g);
      SumWhereAdd(PairEntries(rows, cols[0]), RowSumEntries(rows, cols[1..]), RowSumEntries(rows, cols), g);
    }
  }

  /** Each grouped line's fifteen expense columns add up to the sum, over the
      group's rows, of each row's fifteen expense cells. */
  lemma GroupExpenses(rows: seq<Row>, gs: seq<Grouped>)
    requires HasNums(rows, PlanCols) && gs == GroupBySum(rows, PlanCols)
    ensures HasNums(rows, ExpenseCols)
    ensures forall i :: 0 <= i < |gs| ==>
              && (forall c :: c in ExpenseCols ==> c in gs[i].sums)
              && SumCols(ExpenseCols, gs[i].sums) == SumWhere(RowSumEntries(rows, ExpenseCols), gs[i].key)
  {
    HasNumsSubset(rows, PlanCols, ExpenseCols);
    forall i | 0 <= i < |gs|
      ensures (forall c :: c in ExpenseCols ==> c in gs[i].sums) &&
              SumCols(ExpenseCols, gs[i].sums) == SumWhere(RowSumEntries(rows, ExpenseCols), gs[i].key)
    {
      SumColsOfGroup(rows, ExpenseCols, gs[i].sums, gs[i].key);
    }
  }

  /** Solvency is additive over rows: a group's Solvency is the sum, over the
      Plan rows of its (Directorate, Division) pair, of each row's FY target
      minus that row's fifteen expenses, blank cells counting as 0. */
  lemma PlanSolvencyByRows(rows: seq<Row>, i: nat)
    requires HasNums(rows, PlanCols)
    requires i < |PlanSummary(rows)|
    ensures PlanSummary(rows)[i].solvency == SumWhere(SolvencyEntries(rows), PlanSummary(rows)[i].group.key)
  {
    var line := PlanSummary(rows)[i];
    var g := line.group.key;
    SumWhereSub(PairEntries(rows, TargetCol), RowSumEntries(rows, ExpenseCols), SolvencyEntries(rows), g);
  }

  /** The sheet's `fillna(0)` on the expense columns leaves the summary as it is. */
  lemma PlanSummaryIgnoresFillZero(rows: seq<Row>)
    requires HasNums(rows, PlanCols)
    ensures HasNums(FillZero(rows, ExpenseCols), PlanCols)
    ensures PlanSummary(FillZero(rows, ExpenseCols)) == PlanSummary(rows)
  {
    var filled := FillZero(rows, ExpenseCols);
    forall c | c in PlanCols ensures PairEntries(filled, c) == PairEntries(rows, c) {
      FillZeroEntries(rows, ExpenseCols, c);
    }
    GroupBySumSameEntries(filled, rows, PlanCols);
  }
}
