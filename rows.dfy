/** A row of one of the workbook's sheets, after parsing. The three hierarchy
    columns every sheet carries are fields of their own; the other columns
    are maps from the (whitespace-stripped) header to the cell. */
module Rows {
  import opened Wrappers

  /** A (Directorate, Division) group key. */
  type Pair = (string, string)

  datatype Row = Row(
    directorate: Option<string>,
    division: Option<string>,
    fundType: Option<string>,
    text: map<string, Option<string>>,
    num: map<string, Option<real>>)

  /** The three hierarchy columns that are forward-filled and filtered on. */
  datatype Level = Directorate | Division | FundType

  function KeyAt(r: Row, l: Level): Option<string> {
    match l
    case Directorate => r.directorate
    case Division => r.division
    case FundType => r.fundType
  }

  /** A numeric cell as pandas' sums read it: NaN counts as 0. */
  function OrZero(c: Option<real>): real {
    if c.Some? then c.value else 0.0
  }

  /** Every row carries the numeric column (pandas raises KeyError otherwise). */
  predicate HasNum(rows: seq<Row>, col: string) {
    forall i :: 0 <= i < |rows| ==> col in rows[i].num
  }

  predicate HasNums(rows: seq<Row>, cols: seq<string>) {
    forall i, c :: 0 <= i < |rows| && c in cols ==> c in rows[i].num
  }

  predicate HasText(rows: seq<Row>, col: string) {
    forall i :: 0 <= i < |rows| ==> col in rows[i].text
  }

  lemma HasNumsSubset(rows: seq<Row>, cols: seq<string>, sub: seq<string>)
    requires HasNums(rows, cols)
    requires forall c :: c in sub ==> c in cols
    ensures HasNums(rows, sub)
  {
  }

  /** The group of a row under `groupby(['Directorate', 'Division'])`; rows
      with a missing key belong to no group. */
  function GroupKey(r: Row): Option<Pair> {
    if r.directorate.Some? && r.division.Some? then Some((r.directorate.value, r.division.value))
    else None
  }

  /** The entries a column contributes to a (Directorate, Division) group-by sum. */
  function PairEntries(rows: seq<Row>, col: string): (es: seq<(Option<Pair>, real)>)
    requires HasNum(rows, col)
  {
    seq(|rows|, i requires 0 <= i < |rows| => (GroupKey(rows[i]), OrZero(rows[i].num[col])))
  }

  /** `row[cols].sum()`: the listed cells of a row, NaN counting as 0. */
  function RowSum(r: Row, cols: seq<string>): real
    requires forall c :: c in cols ==> c in r.num
  {
    if cols == [] then 0.0 else OrZero(r.num[cols[0]]) + RowSum(r, cols[1..])
  }

  /** Blank cells of the listed columns become 0. */
  function FillZero(rows: seq<Row>, cols: seq<string>): (filled: seq<Row>)
    ensures |filled| == |rows|
    ensures forall i :: 0 <= i < |rows| ==> filled[i].num.Keys == rows[i].num.Keys
    ensures forall i, c :: 0 <= i < |rows| && c in rows[i].num ==>
              filled[i].num[c] == (if c in cols && rows[i].num[c].None? then Some(0.0) else rows[i].num[c])
    ensures forall i :: 0 <= i < |rows| ==> GroupKey(filled[i]) == GroupKey(rows[i])
    ensures forall i :: 0 <= i < |rows| ==>
              && filled[i].directorate == rows[i].directorate && filled[i].division == rows[i].division
              && filled[i].fundType == rows[i].fundType && filled[i].text == rows[i].text
  {
    seq(|rows|, i requires 0 <= i < |rows| =>
      rows[i].(num := map c | c in rows[i].num ::
                        if c in cols && rows[i].num[c].None? then Some(0.0) else rows[i].num[c]))
  }

  /** Filling blanks with 0 changes no sum: pandas' sums already read NaN as 0. */
  lemma FillZeroEntries(rows: seq<Row>, cols: seq<string>, col: string)
    requires HasNum(rows, col)
    ensures HasNum(FillZero(rows, cols), col)
    ensures PairEntries(FillZero(rows, cols), col) == PairEntries(rows, col)
  {
  }

  /** The listed columns of an aggregated line. */
  function SumCols(cols: seq<string>, m: map<string, real>): real
    requires forall c :: c in cols ==> c in m
  {
    if cols == [] then 0.0 else m[cols[0]] + SumCols(cols[1..], m)
  }

  lemma {:induction false} SumColsAppend(a: seq<string>, b: seq<string>, m: map<string, real>)
    requires forall c :: c in a + b ==> c in m
    ensures SumCols(a + b, m) == SumCols(a, m) + SumCols(b, m)
  {
    if a == [] {
      assert a + b == b;
    } else {
      assert (a + b)[1..] == a[1..] + b;
      SumColsAppend(a[1..], b, m);
    }
  }
}
