/** The category pivots of Tab 2, "FY25 Actuals" (focus.py:81-83), and of
    Tab 3, "FY25 Actuals NL Detail" (focus.py:100-103):
    a pivot with one line per (Directorate, Division), one column per
    Category and Cum Comm summed in each cell, 0 where nothing falls, then the lines of the
    sentinel divisions dropped, then a `Total Expenses` column summing the
    category columns. A sheet is seen as entries keyed by
    ((Directorate, Division), Category), missing when any of the three is blank. */
module Pivots {
  import opened Wrappers
  import opened Rows
  import opened Sums
  import opened Order

  const CategoryCol: string := "Category"
  const CumCommCol: string := "Cum Comm"

  /** The divisions Tab 2 drops: the workbook's subtotal lines and unassigned spending. */
  const WbsExcluded: set<string> := {"Subtotal:", "Grand Total:", "UNKNOWN"}

  /** The one division Tab 3 drops. */
  const NlExcluded: set<string> := {"UNKNOWN"}

  /** A (group, category) pivot cell. */
  type Cell = (Pair, string)

  function CellBefore(): (Cell, Cell) -> bool {
    Lex(PairBefore(), StringBefore)
  }

  lemma CellOrder()
    ensures StrictTotal(CellBefore())
  {
    PairOrder();
    StringOrder();
    LexOrder(PairBefore(), StringBefore);
  }

  /** The sheet carries the two columns the pivot reads. */
  predicate PivotSheet(rows: seq<Row>) {
    HasText(rows, CategoryCol) && HasNum(rows, CumCommCol)
  }

  function CellKey(r: Row): Option<Cell>
    requires CategoryCol in r.text
  {
    if GroupKey(r).Some? && r.text[CategoryCol].Some? then Some((GroupKey(r).value, r.text[CategoryCol].value))
    else None
  }

  /** The entries a sheet contributes to its pivot. */
  function CellEntries(rows: seq<Row>): seq<(Option<Cell>, real)>
    requires PivotSheet(rows)
  {
    seq(|rows|, i requires 0 <= i < |rows| => (CellKey(rows[i]), OrZero(rows[i].num[CumCommCol])))
  }

  /** Each row's Cum Comm under its (Directorate, Division) group, rows without
      a Category belonging to no group, as in the pivot. */
  function CategorisedEntries(rows: seq<Row>): seq<(Option<Pair>, real)>
    requires PivotSheet(rows)
  {
    seq(|rows|, i requires 0 <= i < |rows| =>
      (if rows[i].text[CategoryCol].Some? then GroupKey(rows[i]) else None, OrZero(rows[i].num[CumCommCol])))
  }

  function GroupsOf(cs: seq<Cell>): (gs: seq<Pair>)
    ensures forall g :: g in gs <==> exists i :: 0 <= i < |cs| && cs[i].0 == g
  {
    var gs := seq(|cs|, i requires 0 <= i < |cs| => cs[i].0);
    assert forall i :: 0 <= i < |cs| ==> gs[i] == cs[i].0;
    gs
  }

  function CategoriesOf(cs: seq<Cell>): (ss: seq<string>)
    ensures forall s :: s in ss <==> exists i :: 0 <= i < |cs| && cs[i].1 == s
  {
    var ss := seq(|cs|, i requires 0 <= i < |cs| => cs[i].1);
    assert forall i :: 0 <= i < |cs| ==> ss[i] == cs[i].1;
    ss
  }

  /** Drops the groups whose Division is excluded, keeping the order. */
  function KeepDivisions(gs: seq<Pair>, excluded: set<string>): (kept: seq<Pair>)
    ensures forall g :: g in kept <==> g in gs && g.1 !in excluded
  {
    if gs == [] then []
    else
      var rest := KeepDivisions(gs[1..], excluded);
      assert forall g :: g in gs <==> g == gs[0] || g in gs[1..];
      if gs[0].1 in excluded then rest else [gs[0]] + rest
  }

  lemma {:induction false} KeepDivisionsSorted(gs: seq<Pair>, excluded: set<string>)
    requires StrictlySorted(gs, PairBefore())
    ensures StrictlySorted(KeepDivisions(gs, excluded), PairBefore())
  {
    if gs != [] {
      KeepDivisionsSorted(gs[1..], excluded);
      if gs[0].1 !in excluded {
        forall y | y in KeepDivisions(gs[1..], excluded) ensures PairBefore()(gs[0], y) {
          var j :| 0 <= j < |gs[1..]| && gs[1..][j] == y;
          assert gs[j + 1] == y;
        }
        SortedCons(gs[0], KeepDivisions(gs[1..], excluded), PairBefore());
      }
    }
  }

  /** A line of the pivot: its group, one cell per category and `Total Expenses`. */
  datatype PivotLine = PivotLine(key: Pair, cells: map<string, real>, total: real)

  /** The pivot's category columns, in order, and its lines. */
  datatype Pivot = Pivot(categories: seq<string>, lines: seq<PivotLine>)

  function LineOf(es: seq<(Option<Cell>, real)>, categories: seq<string>, g: Pair): PivotLine {
    var cells := map c | c in categories :: SumWhere(es, (g, c));
    PivotLine(g, cells, SumCols(categories, cells))
  }

  /** The pivot's columns: the categories of the entries, sorted, each once. */
  function Categories(es: seq<(Option<Cell>, real)>): seq<string> {
    SortedDistinct(CategoriesOf(KeysOf(es)), StringBefore)
  }

  /** The pivot's lines: the groups of the entries, sorted, each once, the
      excluded divisions dropped. */
  function KeptGroups(es: seq<(Option<Cell>, real)>, excluded: set<string>): seq<Pair> {
    KeepDivisions(SortedDistinct(GroupsOf(KeysOf(es)), PairBefore()), excluded)
  }

  /** The pivot of the entries with the lines of the excluded divisions dropped. */
  function PivotOf(es: seq<(Option<Cell>, real)>, excluded: set<string>): (p: Pivot)
    ensures forall i :: 0 <= i < |p.lines| ==> p.lines[i].key.1 !in excluded
    ensures forall i :: 0 <= i < |p.lines| ==>
              && p.lines[i].cells.Keys == set c | c in p.categories
              && (forall c :: c in p.categories ==> c in p.lines[i].cells)
              && p.lines[i].total == SumCols(p.categories, p.lines[i].cells)
  {
    var categories := Categories(es);
    var groups := KeptGroups(es, excluded);
    assert forall i :: 0 <= i < |groups| ==> groups[i] in groups;
    Pivot(categories, seq(|groups|, i requires 0 <= i < |groups| => LineOf(es, categories, groups[i])))
  }

  lemma CategoriesSpec(es: seq<(Option<Cell>, real)>)
    ensures StrictlySorted(Categories(es), StringBefore)
    ensures Distinct(Categories(es))
    ensures forall c :: c in Categories(es) <==> exists g :: Some((g, c)) in Keys(es)
  {
    StringOrder();
    SortedDistinctSpec(CategoriesOf(KeysOf(es)), StringBefore);
    SortedIsDistinct(Categories(es), StringBefore);
    CategoriesPresent(es);
  }

  lemma CategoriesPresent(es: seq<(Option<Cell>, real)>)
    ensures forall c :: c in CategoriesOf(KeysOf(es)) <==> exists g :: Some((g, c)) in Keys(es)
  {
    var present := KeysOf(es);
    forall c ensures c in CategoriesOf(present) <==> exists g :: Some((g, c)) in Keys(es) {
      if c in CategoriesOf(present) {
        var i :| 0 <= i < |present| && present[i].1 == c;
        assert Some((present[i].0, c)) in Keys(es);
      }
      if g :| Some((g, c)) in Keys(es) {
        assert (g, c) in present;
      }
    }
  }

  lemma GroupsPresent(es: seq<(Option<Cell>, real)>)
    ensures forall g :: g in GroupsOf(KeysOf(es)) <==> exists c :: Some((g, c)) in Keys(es)
  {
    var present := KeysOf(es);
    forall g ensures g in GroupsOf(present) <==> exists c :: Some((g, c)) in Keys(es) {
      if g in GroupsOf(present) {
        var i :| 0 <= i < |present| && present[i].0 == g;
        assert Some((g, present[i].1)) in Keys(es);
      }
      if c :| Some((g, c)) in Keys(es) {
        assert (g, c) in present;
      }
    }
  }

  lemma GroupsSpec(es: seq<(Option<Cell>, real)>, excluded: set<string>)
    ensures StrictlySorted(KeptGroups(es, excluded), PairBefore())
    ensures forall g :: g in KeptGroups(es, excluded) <==>
                        (exists c :: Some((g, c)) in Keys(es)) && g.1 !in excluded
  {
    PairOrder();
    SortedDistinctSpec(GroupsOf(KeysOf(es)), PairBefore());
    KeepDivisionsSorted(SortedDistinct(GroupsOf(KeysOf(es)), PairBefore()), excluded);
    GroupsPresent(es);
  }

  /** Entries with the same cells give the pivot the same columns and lines. */
  lemma SameCellsSameAxes(a: seq<(Option<Cell>, real)>, b: seq<(Option<Cell>, real)>, excluded: set<string>)
    requires forall k :: k in KeysOf(a) <==> k in KeysOf(b)
    ensures Categories(a) == Categories(b)
    ensures KeptGroups(a, excluded) == KeptGroups(b, excluded)
  {
    CategoriesPresent(a);
    CategoriesPresent(b);
    GroupsPresent(a);
    GroupsPresent(b);
    StringOrder();
    SortedDistinctSameValues(CategoriesOf(KeysOf(a)), CategoriesOf(KeysOf(b)), StringBefore);
    PairOrder();
    SortedDistinctSameValues(GroupsOf(KeysOf(a)), GroupsOf(KeysOf(b)), PairBefore());
  }

  /** Tab 2's `pivot_wbs`. */
  function WbsPivot(rows: seq<Row>): (p: Pivot)
    requires PivotSheet(rows)
    ensures forall i :: 0 <= i < |p.lines| ==> p.lines[i].key.1 !in {"Subtotal:", "Grand Total:", "UNKNOWN"}
  {
    PivotOf(CellEntries(rows), WbsExcluded)
  }

  /** Tab 3's pre-aggregation by (Directorate, Division, Category) (focus.py:100):
      exactly one entry per present cell, holding that cell's sum. */
  function Tally(es: seq<(Option<Cell>, real)>): (ts: seq<(Option<Cell>, real)>)
    ensures forall i :: 0 <= i < |ts| ==> ts[i].0.Some? && ts[i].0.value in KeysOf(es)
    ensures forall i, j :: 0 <= i < j < |ts| ==> ts[i].0 != ts[j].0
    ensures forall c :: c in KeysOf(es) ==>
              exists i :: 0 <= i < |ts| && ts[i].0 == Some(c) && ts[i].1 == SumWhere(es, c)
  {
    var ks := SortedDistinct(KeysOf(es), CellBefore());
    CellOrder();
    SortedDistinctSpec(KeysOf(es), CellBefore());
    SortedIsDistinct(ks, CellBefore());
    var ts := seq(|ks|, i requires 0 <= i < |ks| => (Some(ks[i]), SumWhere(es, ks[i])));
    assert forall c :: c in KeysOf(es) ==>
             exists i :: 0 <= i < |ts| && ts[i].0 == Some(c) && ts[i].1 == SumWhere(es, c) by {
      forall c | c in KeysOf(es)
        ensures exists i :: 0 <= i < |ts| && ts[i].0 == Some(c) && ts[i].1 == SumWhere(es, c)
      {
        var i :| 0 <= i < |ks| && ks[i] == c;
        assert ts[i].0 == Some(c);
      }
    }
    ts
  }

  /** Tab 3's `pivot_nl`, pivoting the pre-aggregated `grouped_nl`. */
  function NlPivot(rows: seq<Row>): (p: Pivot)
    requires PivotSheet(rows)
    ensures forall i :: 0 <= i < |p.lines| ==> p.lines[i].key.1 != "UNKNOWN"
  {
    PivotOf(Tally(CellEntries(rows)), NlExcluded)
  }

  /** The groups of a pivot's lines, in order. */
  function LineKeys(p: Pivot): seq<Pair> {
    seq(|p.lines|, i requires 0 <= i < |p.lines| => p.lines[i].key)
  }

  lemma PivotLines(es: seq<(Option<Cell>, real)>, excluded: set<string>)
    ensures var p := PivotOf(es, excluded);
            && p.categories == Categories(es)
            && LineKeys(p) == KeptGroups(es, excluded)
            && (forall i :: 0 <= i < |p.lines| ==> p.lines[i].cells.Keys == set c | c in p.categories)
  {
  }

  /** The categories are the sorted distinct categories of the entries; the
      lines are one per group of the entries outside the excluded divisions,
      in increasing order, each with a cell for every category. In
      particular no line belongs to an excluded division. */
  lemma PivotShape(es: seq<(Option<Cell>, real)>, excluded: set<string>)
    ensures var p := PivotOf(es, excluded);
            && StrictlySorted(p.categories, StringBefore)
            && (forall c :: c in p.categories <==> exists g :: Some((g, c)) in Keys(es))
            && StrictlySorted(LineKeys(p), PairBefore())
            && (forall g :: g in LineKeys(p) <==> (exists c :: Some((g, c)) in Keys(es)) && g.1 !in excluded)
            && (forall i :: 0 <= i < |p.lines| ==> p.lines[i].key.1 !in excluded)
            && (forall i :: 0 <= i < |p.lines| ==> p.lines[i].cells.Keys == set c | c in p.categories)
  {
    var p := PivotOf(es, excluded);
    PivotLines(es, excluded);
    CategoriesSpec(es);
    GroupsSpec(es, excluded);
    forall i | 0 <= i < |p.lines| ensures p.lines[i].key.1 !in excluded {
      assert p.lines[i].key == LineKeys(p)[i];
    }
  }

  /** `fill_value=0`: a (group, category) pair no entry carries shows 0. */
  lemma PivotAbsentCell(es: seq<(Option<Cell>, real)>, excluded: set<string>, i: nat, c: string)
    requires i < |PivotOf(es, excluded).lines|
    requires c in PivotOf(es, excluded).categories
    requires Some((PivotOf(es, excluded).lines[i].key, c)) !in Keys(es)
    ensures c in PivotOf(es, excluded).lines[i].cells
    ensures PivotOf(es, excluded).lines[i].cells[c] == 0.0
  {
    SumWhereAbsent(es, (PivotOf(es, excluded).lines[i].key, c));
  }

  /** The entries of group g, keyed by category. */
  function CategoryEntries(es: seq<(Option<Cell>, real)>, g: Pair): seq<(Option<string>, real)> {
    seq(|es|, i requires 0 <= i < |es| =>
      (if es[i].0.Some? && es[i].0.value.0 == g then Some(es[i].0.value.1) else None, es[i].1))
  }

  /** The entries keyed by group alone. */
  function GroupEntries(es: seq<(Option<Cell>, real)>): seq<(Option<Pair>, real)> {
    seq(|es|, i requires 0 <= i < |es| => (if es[i].0.Some? then Some(es[i].0.value.0) else None, es[i].1))
  }

  lemma {:induction false} SumWhereByCategory(es: seq<(Option<Cell>, real)>, g: Pair, c: string)
    ensures SumWhere(es, (g, c)) == SumWhere(CategoryEntries(es, g), c)
  {
    if es != [] {
      assert CategoryEntries(es, g)[1..] == CategoryEntries(es[1..], g);
      SumWhereByCategory(es[1..], g, c);
    }
  }

  lemma {:induction false} CategorisedSum(es: seq<(Option<Cell>, real)>, g: Pair)
    ensures SumKeyed(CategoryEntries(es, g)) == SumWhere(GroupEntries(es), g)
  {
    if es != [] {
      assert CategoryEntries(es, g)[1..] == CategoryEntries(es[1..], g);
      assert GroupEntries(es)[1..] == GroupEntries(es[1..]);
      CategorisedSum(es[1..], g);
    }
  }

  lemma {:induction false} SumColsOverKeys(cols: seq<string>, m: map<string, real>, es: seq<(Option<string>, real)>)
    requires forall c :: c in cols ==> c in m && m[c] == SumWhere(es, c)
    ensures SumCols(cols, m) == SumOverKeys(cols, es)
  {
    if cols != [] {
      SumColsOverKeys(cols[1..], m, es);
    }
  }

  /** `Total Expenses` is the sum of the line's category cells, and that is
      the sum of the amounts of every entry of the line's group. */
  lemma PivotTotal(es: seq<(Option<Cell>, real)>, excluded: set<string>, i: nat)
    requires i < |PivotOf(es, excluded).lines|
    ensures var p := PivotOf(es, excluded);
            && (forall c :: c in p.categories ==> c in p.lines[i].cells)
            && p.lines[i].total == SumCols(p.categories, p.lines[i].cells)
            && p.lines[i].total == SumWhere(GroupEntries(es), p.lines[i].key)
  {
    var p := PivotOf(es, excluded);
    var g := p.lines[i].key;
    var ce := CategoryEntries(es, g);
    CategoriesSpec(es);
    forall c | c in p.categories ensures SumWhere(es, (g, c)) == SumWhere(ce, c) {
      SumWhereByCategory(es, g, c);
    }
    SumColsOverKeys(p.categories, p.lines[i].cells, ce);
    forall j | 0 <= j < |ce| && ce[j].0.Some? ensures ce[j].0.value in p.categories {
      assert Keys(es)[j] == Some((g, ce[j].0.value));
    }
    SumOverDistinctKeys(p.categories, ce);
    CategorisedSum(es, g);
  }

  /** On a sheet: a line's `Total Expenses` is the sum of Cum Comm over
      the rows of its (Directorate, Division) that carry a Category, and the
      line is not one of an excluded division. */
  lemma SheetTotals(rows: seq<Row>, excluded: set<string>, i: nat)
    requires PivotSheet(rows) && i < |PivotOf(CellEntries(rows), excluded).lines|
    ensures PivotOf(CellEntries(rows), excluded).lines[i].key.1 !in excluded
    ensures PivotOf(CellEntries(rows), excluded).lines[i].total ==
            SumWhere(CategorisedEntries(rows), PivotOf(CellEntries(rows), excluded).lines[i].key)
  {
    PivotShape(CellEntries(rows), excluded);
    PivotTotal(CellEntries(rows), excluded, i);
    assert GroupEntries(CellEntries(rows)) == CategorisedEntries(rows);
  }

  /** Tab 2 has no subtotal, grand-total or UNKNOWN line, and each line's
      `Total Expenses` is its group's Cum Comm. */
  lemma WbsTotals(rows: seq<Row>, i: nat)
    requires PivotSheet(rows) && i < |WbsPivot(rows).lines|
    ensures WbsPivot(rows).lines[i].key.1 !in {"Subtotal:", "Grand Total:", "UNKNOWN"}
    ensures WbsPivot(rows).lines[i].total == SumWhere(CategorisedEntries(rows), WbsPivot(rows).lines[i].key)
  {
    SheetTotals(rows, WbsExcluded, i);
  }

  lemma {:induction false} TallyLookup(ks: seq<Cell>, es: seq<(Option<Cell>, real)>, k: Cell)
    requires Distinct(ks)
    ensures var ts := seq(|ks|, i requires 0 <= i < |ks| => (Some(ks[i]), SumWhere(es, ks[i])));
            SumWhere(ts, k) == if k in ks then SumWhere(es, k) else 0.0
  {
    var ts := seq(|ks|, i requires 0 <= i < |ks| => (Some(ks[i]), SumWhere(es, ks[i])));
    if ks != [] {
      assert Distinct(ks[1..]) by {
        forall i, j | 0 <= i < |ks[1..]| && 0 <= j < |ks[1..]| && i != j
          ensures ks[1..][i] != ks[1..][j]
        {
          assert ks[1..][i] == ks[i + 1] && ks[1..][j] == ks[j + 1];
        }
      }
      assert ts[1..] == seq(|ks[1..]|, i requires 0 <= i < |ks[1..]| => (Some(ks[1..][i]), SumWhere(es, ks[1..][i])));
      TallyLookup(ks[1..], es, k);
      if k == ks[0] {
        assert k !in ks[1..] by {
          forall j | 0 <= j < |ks[1..]| ensures ks[1..][j] != k {
            assert ks[1..][j] == ks[j + 1];
          }
        }
      }
      assert ks == [ks[0]] + ks[1..];
    }
  }

  /** Pre-aggregating by (Directorate, Division, Category) keeps every cell's
      sum: each cell that occurs is tallied once with its sum, and a cell that
      does not occur sums to 0 either way. */
  lemma TallySums(es: seq<(Option<Cell>, real)>, k: Cell)
    ensures SumWhere(Tally(es), k) == SumWhere(es, k)
    ensures forall c :: c in KeysOf(Tally(es)) <==> c in KeysOf(es)
  {
    CellOrder();
    var ks := SortedDistinct(KeysOf(es), CellBefore());
    SortedDistinctSpec(KeysOf(es), CellBefore());
    SortedIsDistinct(ks, CellBefore());
    TallyLookup(ks, es, k);
    if k !in ks {
      SumWhereAbsent(es, k);
    }
    var ts := Tally(es);
    forall c ensures c in KeysOf(ts) <==> c in KeysOf(es) {
      if c in ks {
        var i :| 0 <= i < |ks| && ks[i] == c;
        assert Keys(ts)[i] == Some(c);
      }
      if Some(c) in Keys(ts) {
        var i :| 0 <= i < |ts| && Keys(ts)[i] == Some(c);
        assert ks[i] == c;
      }
    }
  }

  /** Tab 3 pivots the pre-aggregated `grouped_nl`; that gives the same table
      as pivoting the Non-Labor rows directly. */
  lemma TwoStepPivot(es: seq<(Option<Cell>, real)>, excluded: set<string>)
    ensures PivotOf(Tally(es), excluded) == PivotOf(es, excluded)
  {
    var ts := Tally(es);
    TallySums(es, (("", ""), ""));
    SameCellsSameAxes(ts, es, excluded);
    var p, q := PivotOf(ts, excluded), PivotOf(es, excluded);
    assert p.categories == q.categories;
    assert |p.lines| == |q.lines|;
    forall i | 0 <= i < |p.lines| ensures p.lines[i] == q.lines[i] {
      forall c | c in p.categories ensures SumWhere(ts, (p.lines[i].key, c)) == SumWhere(es, (p.lines[i].key, c)) {
        TallySums(es, (p.lines[i].key, c));
      }
      assert p.lines[i].cells == q.lines[i].cells;
    }
  }

  /** On a sheet: Tab 3's two-step pivot equals the direct pivot of the rows,
      so its totals are Cum Comm summed over each group's categorised rows,
      and it has no UNKNOWN line. */
  lemma NlTotals(rows: seq<Row>, i: nat)
    requires PivotSheet(rows) && i < |NlPivot(rows).lines|
    ensures NlPivot(rows) == PivotOf(CellEntries(rows), NlExcluded)
    ensures NlPivot(rows).lines[i].key.1 != "UNKNOWN"
    ensures NlPivot(rows).lines[i].total == SumWhere(CategorisedEntries(rows), NlPivot(rows).lines[i].key)
  {
    TwoStepPivot(CellEntries(rows), NlExcluded);
    SheetTotals(rows, NlExcluded, i);
  }
}
