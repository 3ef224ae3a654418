/** Tab 6, "ScenarioSolvency" (focus.py:155-186, 214, 224-227): six
    percentage sliders scale the six projected-cost columns of the
    Actuals-ScenarioSolvency sheet, `Total` is recomputed per division as the
    allotment minus nineteen cost columns, and the insights pick the divisions
    with the highest projected labor and contracts and sum the projections. */
module Projections {
  import opened Wrappers
  import opened Rows
  import opened Sums

  /** The scaled columns, in slider order. */
  const ProjectedCols: seq<string> :=
    ["ProjectedContracts", "ProjectedEquip", "ProjectedLabor (.47)", "ProjectedOverhead",
     "ProjectedSupplies", "ProjectedTravel"]

  const LaborCol: string := "ProjectedLabor (.47)"
  const ContractsCol: string := "ProjectedContracts"

  /** The nineteen cost columns `Total` subtracts, the six projected ones among them. */
  const CostCols: seq<string> :=
    ["ASSMT/Chargebacks", "Awards", "Contracts", "ProjectedContracts",
     "Equipment", "ProjectedEquip", "Labor", "ProjectedLabor (.47)",
     "VERA (Placeholder - 15people)", "OGA", "Other", "Overhead",
     "ProjectedOverhead", "Separation Costs", "Supplies", "ProjectedSupplies",
     "Training", "Travel (TDY and PCS)", "ProjectedTravel"]

  const IobCol: string := "IoBAllotment"
  const SofCol: string := "SOF Allotment"
  const TotalCol: string := "Total"

  /** The sheet carries every column Tab 6 reads. */
  predicate ScenarioSheet(rows: seq<Row>) {
    HasNums(rows, CostCols) && HasNum(rows, IobCol) && HasNum(rows, SofCol)
  }

  lemma ProjectedAreCosts()
    ensures forall c :: c in ProjectedCols ==> c in CostCols
    ensures Distinct(ProjectedCols)
  {
  }

  /** The projected columns, the two insight columns among them, are columns of a scenario sheet. */
  lemma ScenarioColumns(rows: seq<Row>)
    requires ScenarioSheet(rows)
    ensures forall c :: c in ProjectedCols ==> HasNum(rows, c)
    ensures HasNum(rows, LaborCol) && HasNum(rows, ContractsCol)
  {
    ProjectedAreCosts();
  }

  /** `value * (1 + adjustment / 100)`. */
  function Scale(v: real, p: int): (w: real)
    ensures w - v == v * (p as real / 100.0)
    ensures p == 0 ==> w == v
    ensures p == -100 ==> w == 0.0
    ensures p == 100 ==> w == 2.0 * v
    ensures -100 <= p && 0.0 <= v ==> 0.0 <= w
  {
    v * (1.0 + p as real / 100.0)
  }

  /** A blank cell stays blank. */
  function ScaleCell(c: Option<real>, p: int): Option<real> {
    if c.Some? then Some(Scale(c.value, p)) else None
  }

  /** One pass of the scaling loop: every cell of the column times `1 + p / 100`. */
  function ScaleColumn(rows: seq<Row>, col: string, p: int): (scaled: seq<Row>)
    requires HasNum(rows, col)
    ensures |scaled| == |rows|
    ensures forall i :: 0 <= i < |rows| ==>
              scaled[i] == rows[i].(num := rows[i].num[col := ScaleCell(rows[i].num[col], p)])
  {
    seq(|rows|, i requires 0 <= i < |rows| => rows[i].(num := rows[i].num[col := ScaleCell(rows[i].num[col], p)]))
  }

  /** The sheet after the scaling loop has run over the listed columns; it
      keeps every row and every column. */
  function ScaleColumns(rows: seq<Row>, cols: seq<string>, adjustments: map<string, int>): (scaled: seq<Row>)
    requires HasNums(rows, cols)
    requires forall c :: c in cols ==> c in adjustments
    ensures |scaled| == |rows|
    ensures forall i :: 0 <= i < |rows| ==> scaled[i].num.Keys == rows[i].num.Keys
    decreases |cols|
  {
    if cols == [] then rows
    else
      var init, last := cols[..|cols| - 1], cols[|cols| - 1];
      assert forall c :: c in init ==> c in cols;
      HasNumsSubset(rows, cols, init);
      ScaleColumn(ScaleColumns(rows, init, adjustments), last, adjustments[last])
  }

  /** One more turn of the scaling loop: the next column is still in the
      sheet, and scaling it extends the loop's result by that column. */
  lemma ScaleColumnsStep(rows: seq<Row>, cols: seq<string>, k: nat, adjustments: map<string, int>)
    requires HasNums(rows, cols) && k < |cols|
    requires forall c :: c in cols ==> c in adjustments
    ensures HasNums(rows, cols[..k]) && HasNums(rows, cols[..k + 1])
    ensures HasNum(ScaleColumns(rows, cols[..k], adjustments), cols[k])
    ensures ScaleColumns(rows, cols[..k + 1], adjustments) ==
            ScaleColumn(ScaleColumns(rows, cols[..k], adjustments), cols[k], adjustments[cols[k]])
  {
    assert forall c :: c in cols[..k + 1] ==> c in cols;
    assert forall c :: c in cols[..k] ==> c in cols;
    HasNumsSubset(rows, cols, cols[..k]);
    HasNumsSubset(rows, cols, cols[..k + 1]);
    var prefix := cols[..k + 1];
    assert prefix[..|prefix| - 1] == cols[..k] && prefix[|prefix| - 1] == cols[k];
    assert cols[k] in cols;
    var scaled := ScaleColumns(rows, cols[..k], adjustments);
    forall i | 0 <= i < |scaled| ensures cols[k] in scaled[i].num {
      assert cols[k] in rows[i].num;
    }
  }

  /** Scaling distinct columns one after the other scales each listed column
      once and leaves every other cell, and the hierarchy keys, as they were. */
  lemma {:induction false} ScaleColumnsEffect(rows: seq<Row>, cols: seq<string>, adjustments: map<string, int>)
    requires HasNums(rows, cols) && Distinct(cols)
    requires forall c :: c in cols ==> c in adjustments
    ensures var scaled := ScaleColumns(rows, cols, adjustments);
            && |scaled| == |rows|
            && (forall i :: 0 <= i < |rows| ==>
                  scaled[i].num.Keys == rows[i].num.Keys && scaled[i].text == rows[i].text &&
                  scaled[i].directorate == rows[i].directorate && scaled[i].division == rows[i].division &&
                  scaled[i].fundType == rows[i].fundType)
            && (forall i, c :: 0 <= i < |rows| && c in rows[i].num ==>
                  scaled[i].num[c] == if c in cols then ScaleCell(rows[i].num[c], adjustments[c]) else rows[i].num[c])
    decreases |cols|
  {
    if cols != [] {
      var init := cols[..|cols| - 1];
      var last := cols[|cols| - 1];
      assert Distinct(init) by {
        forall i, j | 0 <= i < |init| && 0 <= j < |init| && i != j ensures init[i] != init[j] {
          assert init[i] == cols[i] && init[j] == cols[j];
        }
      }
      assert last !in init by {
        forall j | 0 <= j < |init| ensures init[j] != last {
          assert init[j] == cols[j];
        }
      }
      assert forall c :: c in cols <==> c in init || c == last;
      HasNumsSubset(rows, cols, init);
      ScaleColumnsEffect(rows, init, adjustments);
    }
  }

  /** A row's Total: its IoBAllotment, or its SOF Allotment when that is
      blank, minus its nineteen cost cells (blank ones skipped); blank when
      both allotments are. */
  function TotalOf(r: Row): (t: Option<real>)
    requires forall c :: c in CostCols ==> c in r.num
    requires IobCol in r.num && SofCol in r.num
    ensures r.num[IobCol].Some? ==> t == Some(r.num[IobCol].value - RowSum(r, CostCols))
    ensures r.num[IobCol].None? && r.num[SofCol].Some? ==> t == Some(r.num[SofCol].value - RowSum(r, CostCols))
    ensures t.None? <==> r.num[IobCol].None? && r.num[SofCol].None?
  {
    var allotment := if r.num[IobCol].Some? then r.num[IobCol] else r.num[SofCol];
    if allotment.Some? then Some(allotment.value - RowSum(r, CostCols)) else None
  }

  /** The `Total` column written into every row. */
  function AddTotal(rows: seq<Row>): (totalled: seq<Row>)
    requires ScenarioSheet(rows)
    ensures |totalled| == |rows|
    ensures forall i :: 0 <= i < |rows| ==> totalled[i] == rows[i].(num := rows[i].num[TotalCol := TotalOf(rows[i])])
  {
    seq(|rows|, i requires 0 <= i < |rows| => rows[i].(num := rows[i].num[TotalCol := TotalOf(rows[i])]))
  }

  /** `df[col].sum()`: blank cells are skipped. */
  function ColumnSum(rows: seq<Row>, col: string): (total: real)
    requires HasNum(rows, col)
    ensures (forall i :: 0 <= i < |rows| ==> 0.0 <= OrZero(rows[i].num[col])) ==> 0.0 <= total
  {
    if rows == [] then 0.0 else OrZero(rows[0].num[col]) + ColumnSum(rows[1..], col)
  }

  function SumTotals(rows: seq<Row>): real
    requires ScenarioSheet(rows)
  {
    if rows == [] then 0.0 else OrZero(TotalOf(rows[0])) + SumTotals(rows[1..])
  }

  /** Total solvency across divisions: the sum of the per-row `Total`, rows
      with a blank `Total` adding nothing. */
  lemma {:induction false} TotalSolvency(rows: seq<Row>)
    requires ScenarioSheet(rows)
    ensures HasNum(AddTotal(rows), TotalCol)
    ensures ColumnSum(AddTotal(rows), TotalCol) == SumTotals(rows)
  {
    if rows != [] {
      assert AddTotal(rows)[1..] == AddTotal(rows[1..]);
      TotalSolvency(rows[1..]);
    }
  }

  /** The allotment each row's `Total` starts from, 0 when both are blank. */
  function AllotmentSum(rows: seq<Row>): real
    requires ScenarioSheet(rows)
  {
    if rows == [] then 0.0
    else
      var r := rows[0];
      OrZero(if r.num[IobCol].Some? then r.num[IobCol] else r.num[SofCol]) + AllotmentSum(rows[1..])
  }

  /** The sum over the rows of each row's total of the listed columns. */
  function RowsSum(rows: seq<Row>, cols: seq<string>): real
    requires HasNums(rows, cols)
  {
    if rows == [] then 0.0 else RowSum(rows[0], cols) + RowsSum(rows[1..], cols)
  }

  /** The sum over the listed columns of each column's total. */
  function ColumnsSum(rows: seq<Row>, cols: seq<string>): real
    requires HasNums(rows, cols)
  {
    if cols == [] then 0.0
    else
      HasNumsSubset(rows, cols, cols[1..]);
      assert cols[0] in cols;
      ColumnSum(rows, cols[0]) + ColumnsSum(rows, cols[1..])
  }

  lemma {:induction false} ColumnsSumCons(rows: seq<Row>, cols: seq<string>)
    requires HasNums(rows, cols) && rows != []
    ensures ColumnsSum(rows, cols) == RowSum(rows[0], cols) + ColumnsSum(rows[1..], cols)
  {
    if cols != [] {
      HasNumsSubset(rows, cols, cols[1..]);
      ColumnsSumCons(rows, cols[1..]);
    }
  }

  /** Adding up row totals or column totals gives the same grand total. */
  lemma {:induction false} RowsSumByColumns(rows: seq<Row>, cols: seq<string>)
    requires HasNums(rows, cols)
    ensures RowsSum(rows, cols) == ColumnsSum(rows, cols)
  {
    if rows == [] {
      ColumnsSumEmpty(cols);
    } else {
      RowsSumByColumns(rows[1..], cols);
      ColumnsSumCons(rows, cols);
    }
  }

  lemma {:induction false} ColumnsSumEmpty(cols: seq<string>)
    ensures ColumnsSum([], cols) == 0.0
  {
    if cols != [] {
      ColumnsSumEmpty(cols[1..]);
    }
  }

  /** When every row has an allotment, total solvency is the summed
      allotments minus the sums of the nineteen cost columns. */
  lemma {:induction false} TotalSolvencyByColumns(rows: seq<Row>)
    requires ScenarioSheet(rows)
    requires forall i :: 0 <= i < |rows| ==> rows[i].num[IobCol].Some? || rows[i].num[SofCol].Some?
    ensures SumTotals(rows) == AllotmentSum(rows) - ColumnsSum(rows, CostCols)
  {
    AllotmentsMinusCosts(rows);
    RowsSumByColumns(rows, CostCols);
  }

  lemma {:induction false} AllotmentsMinusCosts(rows: seq<Row>)
    requires ScenarioSheet(rows)
    requires forall i :: 0 <= i < |rows| ==> rows[i].num[IobCol].Some? || rows[i].num[SofCol].Some?
    ensures SumTotals(rows) == AllotmentSum(rows) - RowsSum(rows, CostCols)
  {
    if rows != [] {
      AllotmentsMinusCosts(rows[1..]);
    }
  }

  /** Scaling distributes over a sum. */
  lemma ScaleAdd(a: real, b: real, p: int)
    ensures Scale(a, p) + Scale(b, p) == Scale(a + b, p)
  {
    var f := 1.0 + p as real / 100.0;
    assert (a + b) * f == a * f + b * f;
  }

  /** Scaling every cell of a column scales the column's sum by the same
      factor, blank cells staying out of both. */
  lemma {:induction false} ScaledColumnSum(rows: seq<Row>, scaled: seq<Row>, col: string, p: int)
    requires HasNum(rows, col) && HasNum(scaled, col) && |scaled| == |rows|
    requires forall i :: 0 <= i < |rows| ==> scaled[i].num[col] == ScaleCell(rows[i].num[col], p)
    ensures ColumnSum(scaled, col) == Scale(ColumnSum(rows, col), p)
  {
    if rows != [] {
      ScaledColumnSum(rows[1..], scaled[1..], col, p);
      var head, rest := OrZero(rows[0].num[col]), ColumnSum(rows[1..], col);
      assert ColumnSum(rows, col) == head + rest;
      assert ColumnSum(scaled, col) == OrZero(scaled[0].num[col]) + ColumnSum(scaled[1..], col);
      assert OrZero(scaled[0].num[col]) == Scale(head, p);
      ScaleAdd(head, rest, p);
    }
  }

  /** After the scaling loop, each projected column sums to its old sum
      scaled by its slider: the insight's cumulative projections. */
  lemma ProjectedTotals(rows: seq<Row>, adjustments: map<string, int>, c: string)
    requires HasNums(rows, ProjectedCols)
    requires forall c :: c in ProjectedCols ==> c in adjustments
    requires c in ProjectedCols
    ensures HasNum(ScaleColumns(rows, ProjectedCols, adjustments), c)
    ensures ColumnSum(ScaleColumns(rows, ProjectedCols, adjustments), c) == Scale(ColumnSum(rows, c), adjustments[c])
  {
    ProjectedAreCosts();
    ScaleColumnsEffect(rows, ProjectedCols, adjustments);
    ScaledColumnSum(rows, ScaleColumns(rows, ProjectedCols, adjustments), c, adjustments[c]);
  }

  /** With every slider at 0 the scaling loop leaves the sheet as it was. */
  lemma NoAdjustmentIsIdentity(rows: seq<Row>, adjustments: map<string, int>)
    requires HasNums(rows, ProjectedCols)
    requires forall c :: c in ProjectedCols ==> c in adjustments && adjustments[c] == 0
    ensures ScaleColumns(rows, ProjectedCols, adjustments) == rows
  {
    ProjectedAreCosts();
    ZeroScalingIsIdentity(rows, ProjectedCols, adjustments);
  }

  lemma ZeroScalingIsIdentity(rows: seq<Row>, cols: seq<string>, adjustments: map<string, int>)
    requires HasNums(rows, cols) && Distinct(cols)
    requires forall c :: c in cols ==> c in adjustments && adjustments[c] == 0
    ensures ScaleColumns(rows, cols, adjustments) == rows
  {
    ScaleColumnsEffect(rows, cols, adjustments);
    var scaled := ScaleColumns(rows, cols, adjustments);
    forall i | 0 <= i < |rows| ensures scaled[i] == rows[i] {
      forall c | c in rows[i].num ensures scaled[i].num[c] == rows[i].num[c] {
        if c in cols {
          assert ScaleCell(rows[i].num[c], 0) == rows[i].num[c];
        }
      }
      assert scaled[i].num == rows[i].num;
    }
  }

  /** The row a descending sort on the column puts first (focus.py:225-226), as the
      index of the row it keeps: a row whose value is at least every other
      row's, blank values sorting last; nothing when the sheet is empty. */
  function TopBy(rows: seq<Row>, col: string): (top: Option<nat>)
    requires HasNum(rows, col)
    ensures top.None? <==> rows == []
    ensures top.Some? ==> top.value < |rows|
    ensures top.Some? ==> forall j :: 0 <= j < |rows| && rows[j].num[col].Some? ==>
              rows[top.value].num[col].Some? && rows[j].num[col].value <= rows[top.value].num[col].value
  {
    if rows == [] then None
    else
      var rest := TopBy(rows[1..], col);
      if rest.None? then Some(0)
      else
        var best := rest.value + 1;
        assert forall j :: 1 <= j < |rows| ==> rows[j] == rows[1..][j - 1];
        if rows[0].num[col].Some? &&
           (rows[best].num[col].None? || rows[best].num[col].value < rows[0].num[col].value)
        then Some(0)
        else Some(best)
  }
}
