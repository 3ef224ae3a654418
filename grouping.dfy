/** The (Directorate, Division) group-by with summed columns
    (focus.py:63-65, 121-123): one output row per (Directorate, Division) pair
    present in the sheet, in increasing key order, holding each column's sum
    over the rows of the pair, blank cells counting as 0. */
module Grouping {
  import opened Wrappers
  import opened Rows
  import opened Sums
  import opened Order

  datatype Grouped = Grouped(key: Pair, sums: map<string, real>)

  /** The group keys of the rows, in sheet order, rows with a blank key left out. */
  function PresentPairs(rows: seq<Row>): (ps: seq<Pair>)
    ensures forall g :: g in ps <==> exists i :: 0 <= i < |rows| && GroupKey(rows[i]) == Some(g)
  {
    if rows == [] then []
    else
      assert forall i :: 1 <= i < |rows| ==> rows[i] == rows[1..][i - 1];
      (if GroupKey(rows[0]).Some? then [GroupKey(rows[0]).value] else []) + PresentPairs(rows[1..])
  }

  function GroupPairs(rows: seq<Row>): seq<Pair> {
    SortedDistinct(PresentPairs(rows), PairBefore())
  }

  /** `groupby(['Directorate', 'Division']).agg(sum)`: one line per group key,
      each holding every listed column summed over the rows of its group. */
  function GroupBySum(rows: seq<Row>, cols: seq<string>): (gs: seq<Grouped>)
    requires HasNums(rows, cols)
    ensures forall i :: 0 <= i < |gs| ==> gs[i].sums.Keys == set c | c in cols
    ensures forall i, c :: 0 <= i < |gs| && c in cols ==>
              c in gs[i].sums && gs[i].sums[c] == SumWhere(PairEntries(rows, c), gs[i].key)
  {
    var keys := GroupPairs(rows);
    seq(|keys|, i requires 0 <= i < |keys| =>
      Grouped(keys[i], map c | c in cols :: SumWhere(PairEntries(rows, c), keys[i])))
  }

  /** One line per distinct (Directorate, Division) pair of the sheet, never
      one for a pair that does not occur, in increasing key order; each line
      holds exactly the summed columns. */
  lemma GroupBySumKeys(rows: seq<Row>, cols: seq<string>)
    requires HasNums(rows, cols)
    ensures var gs := GroupBySum(rows, cols);
            && (forall i, j :: 0 <= i < j < |gs| ==> PairBefore()(gs[i].key, gs[j].key))
            && (forall g :: (exists i :: 0 <= i < |gs| && gs[i].key == g) <==>
                            (exists j :: 0 <= j < |rows| && GroupKey(rows[j]) == Some(g)))
            && (forall i :: 0 <= i < |gs| ==> gs[i].sums.Keys == set c | c in cols)
  {
    PairOrder();
    SortedDistinctSpec(PresentPairs(rows), PairBefore());
    var gs := GroupBySum(rows, cols);
    var keys := GroupPairs(rows);
    forall g | exists j :: 0 <= j < |rows| && GroupKey(rows[j]) == Some(g)
      ensures exists i :: 0 <= i < |gs| && gs[i].key == g
    {
      assert g in keys;
      var i :| 0 <= i < |keys| && keys[i] == g;
      assert gs[i].key == g;
    }
  }

  /** Two sheets with the same keys row by row and the same entries in the
      summed columns group to the same lines. */
  lemma GroupBySumSameEntries(a: seq<Row>, b: seq<Row>, cols: seq<string>)
    requires HasNums(a, cols) && HasNums(b, cols)
    requires |a| == |b|
    requires forall i :: 0 <= i < |a| ==> GroupKey(a[i]) == GroupKey(b[i])
    requires forall c :: c in cols ==> PairEntries(a, c) == PairEntries(b, c)
    ensures GroupBySum(a, cols) == GroupBySum(b, cols)
  {
    PresentPairsSameKeys(a, b);
    var keys := GroupPairs(a);
    assert keys == GroupPairs(b);
    var ga := GroupBySum(a, cols);
    var gb := GroupBySum(b, cols);
    forall i | 0 <= i < |keys| ensures ga[i] == gb[i] {
      assert ga[i].sums == gb[i].sums;
    }
  }

  lemma {:induction false} PresentPairsSameKeys(a: seq<Row>, b: seq<Row>)
    requires |a| == |b|
    requires forall i :: 0 <= i < |a| ==> GroupKey(a[i]) == GroupKey(b[i])
    ensures PresentPairs(a) == PresentPairs(b)
  {
    if a != [] {
      PresentPairsSameKeys(a[1..], b[1..]);
    }
  }

  /** The sum of a column over the lines. */
  function LinesTotal(gs: seq<Grouped>, c: string): real
    requires forall i :: 0 <= i < |gs| ==> c in gs[i].sums
  {
    if gs == [] then 0.0 else gs[0].sums[c] + LinesTotal(gs[1..], c)
  }

  lemma {:induction false} LinesTotalOverKeys(gs: seq<Grouped>, keys: seq<Pair>, es: seq<(Option<Pair>, real)>, c: string)
    requires |gs| == |keys|
    requires forall i :: 0 <= i < |gs| ==> c in gs[i].sums && gs[i].sums[c] == SumWhere(es, keys[i])
    ensures LinesTotal(gs, c) == SumOverKeys(keys, es)
  {
    if gs != [] {
      LinesTotalOverKeys(gs[1..], keys[1..], es, c);
    }
  }

  /** Grouping preserves a column's total: the lines add up to the column's
      sum over every row that has both a Directorate and a Division. */
  lemma GroupBySumPreservesTotal(rows: seq<Row>, cols: seq<string>, c: string)
    requires HasNums(rows, cols) && c in cols
    ensures var gs := GroupBySum(rows, cols);
            (forall i :: 0 <= i < |gs| ==> c in gs[i].sums) &&
            LinesTotal(gs, c) == SumKeyed(PairEntries(rows, c))
  {
    var gs := GroupBySum(rows, cols);
    var keys := GroupPairs(rows);
    var es := PairEntries(rows, c);
    PairOrder();
    SortedDistinctSpec(PresentPairs(rows), PairBefore());
    SortedIsDistinct(keys, PairBefore());
    LinesTotalOverKeys(gs, keys, es, c);
    forall i | 0 <= i < |es| && es[i].0.Some? ensures es[i].0.value in keys {
      assert GroupKey(rows[i]) == es[i].0;
    }
    SumOverDistinctKeys(keys, es);
  }
}
