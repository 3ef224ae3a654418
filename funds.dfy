/** Tab 4, "Status of Funds" (focus.py:117-123): blank Allotment and
    Commitments cells become 0, each row gets Available = Allotment -
    Commitments, and the three columns are summed per (Directorate, Division). */
module Funds {
  import opened Wrappers
  import opened Rows
  import opened Sums
  import opened Grouping

  const AllotmentCol: string := "Allotment"
  const CommitmentsCol: string := "Commitments"
  const AvailableCol: string := "Available"

  /** The columns the sheet must have. */
  const InputCols: seq<string> := [AllotmentCol, CommitmentsCol]

  /** The columns `grouped_sof` sums. */
  const FundCols: seq<string> := [AllotmentCol, CommitmentsCol, AvailableCol]

  /** Each row's Available: its Allotment minus its Commitments (focus.py:120). */
  function WithAvailable(rows: seq<Row>): (out: seq<Row>)
    requires HasNum(rows, AllotmentCol) && HasNum(rows, CommitmentsCol)
    ensures |out| == |rows|
    ensures forall i :: 0 <= i < |rows| ==>
              && GroupKey(out[i]) == GroupKey(rows[i])
              && out[i].num.Keys == rows[i].num.Keys + {AvailableCol}
              && out[i].num[AvailableCol] == Some(OrZero(rows[i].num[AllotmentCol]) - OrZero(rows[i].num[CommitmentsCol]))
              && (forall c :: c in rows[i].num && c != AvailableCol ==> out[i].num[c] == rows[i].num[c])
    ensures forall i :: 0 <= i < |rows| ==>
              && out[i].directorate == rows[i].directorate && out[i].division == rows[i].division
              && out[i].fundType == rows[i].fundType && out[i].text == rows[i].text
  {
    seq(|rows|, i requires 0 <= i < |rows| =>
      rows[i].(num := rows[i].num[AvailableCol :=
        Some(OrZero(rows[i].num[AllotmentCol]) - OrZero(rows[i].num[CommitmentsCol]))]))
  }

  /** `fillna(0)` leaves no blank Allotment or Commitments cell, and a present
      value as it was. */
  lemma InputsFilled(rows: seq<Row>)
    requires HasNums(rows, InputCols)
    ensures var filled := FillZero(rows, InputCols);
            && HasNum(filled, AllotmentCol) && HasNum(filled, CommitmentsCol)
            && forall i :: 0 <= i < |rows| ==>
                 && filled[i].num[AllotmentCol] == Some(OrZero(rows[i].num[AllotmentCol]))
                 && filled[i].num[CommitmentsCol] == Some(OrZero(rows[i].num[CommitmentsCol]))
  {
    assert AllotmentCol in InputCols && CommitmentsCol in InputCols;
  }

  /** The sheet `grouped_sof` is built from (focus.py:119-120): Allotment and
      Commitments with their blanks read as 0, and Available their
      difference; the keys and every other cell as they were. */
  function StatusSheet(rows: seq<Row>): (sheet: seq<Row>)
    requires HasNums(rows, InputCols)
    ensures HasNums(sheet, FundCols)
    ensures HasNum(sheet, AllotmentCol) && HasNum(sheet, CommitmentsCol) && HasNum(sheet, AvailableCol)
    ensures |sheet| == |rows|
    ensures forall i :: 0 <= i < |rows| ==>
              && GroupKey(sheet[i]) == GroupKey(rows[i])
              && sheet[i].fundType == rows[i].fundType && sheet[i].text == rows[i].text
              && AllotmentCol in rows[i].num && CommitmentsCol in rows[i].num
              && sheet[i].num[AllotmentCol] == Some(OrZero(rows[i].num[AllotmentCol]))
              && sheet[i].num[CommitmentsCol] == Some(OrZero(rows[i].num[CommitmentsCol]))
              && sheet[i].num[AvailableCol] ==
                   Some(OrZero(rows[i].num[AllotmentCol]) - OrZero(rows[i].num[CommitmentsCol]))
  {
    InputsFilled(rows);
    WithAvailable(FillZero(rows, InputCols))
  }

  /** Row by row, the sheet's Available entry is its Allotment entry minus its Commitments entry. */
  lemma AvailableEntries(rows: seq<Row>)
    requires HasNums(rows, InputCols)
    ensures var sheet := StatusSheet(rows);
            var a := PairEntries(sheet, AllotmentCol);
            var b := PairEntries(sheet, CommitmentsCol);
            var c := PairEntries(sheet, AvailableCol);
            && |a| == |b| == |c|
            && forall i :: 0 <= i < |c| ==> c[i].0 == a[i].0 == b[i].0 && c[i].1 == a[i].1 - b[i].1
  {
  }

  /** For every (Directorate, Division) pair, the summed Available is the
      summed Allotment minus the summed Commitments. */
  lemma AvailableSums(rows: seq<Row>)
    requires HasNums(rows, InputCols)
    ensures var sheet := StatusSheet(rows);
            forall g :: SumWhere(PairEntries(sheet, AvailableCol), g) ==
                        SumWhere(PairEntries(sheet, AllotmentCol), g) - SumWhere(PairEntries(sheet, CommitmentsCol), g)
  {
    var sheet := StatusSheet(rows);
    AvailableEntries(rows);
    forall g ensures SumWhere(PairEntries(sheet, AvailableCol), g) ==
                     SumWhere(PairEntries(sheet, AllotmentCol), g) - SumWhere(PairEntries(sheet, CommitmentsCol), g)
    {
      SumWhereSub(PairEntries(sheet, AllotmentCol), PairEntries(sheet, CommitmentsCol),
                  PairEntries(sheet, AvailableCol), g);
    }
  }

  /** `grouped_sof`: per (Directorate, Division) pair, the three columns
      summed, and the group's Available is its Allotment minus its Commitments. */
  function FundsStatus(rows: seq<Row>): (lines: seq<Grouped>)
    requires HasNums(rows, InputCols)
    ensures forall i :: 0 <= i < |lines| ==>
              && lines[i].sums.Keys == {AllotmentCol, CommitmentsCol, AvailableCol}
              && lines[i].sums[AvailableCol] == lines[i].sums[AllotmentCol] - lines[i].sums[CommitmentsCol]
  {
    AvailableSums(rows);
    var lines := GroupBySum(StatusSheet(rows), FundCols);
    assert (set c | c in FundCols) == {AllotmentCol, CommitmentsCol, AvailableCol};
    lines
  }
}
