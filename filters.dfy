/** The sidebar filters (focus.py:31-52): three dropdowns offering "All" and
    the sorted distinct values of the Plan sheet, and `apply_filters`, which
    keeps the rows matching every selection, "All" matching anything. */
module Filters {
  import opened Wrappers
  import opened Rows
  import opened Order

  const All: string := "All"

  /** The values picked in the Directorate, Division and FundType dropdowns. */
  datatype Selection = Selection(directorate: string, division: string, fundType: string)

  /** A cell matches a choice when it equals it (a blank cell never does), or always when the choice is "All". */
  predicate Matches(choice: string, cell: Option<string>) {
    choice == All || cell == Some(choice)
  }

  predicate Keeps(sel: Selection, r: Row) {
    && Matches(sel.directorate, r.directorate)
    && Matches(sel.division, r.division)
    && Matches(sel.fundType, r.fundType)
  }

  /** `apply_filters(df)`: the rows kept by the selection, in sheet order. */
  function ApplyFilters(rows: seq<Row>, sel: Selection): (kept: seq<Row>)
    ensures |kept| <= |rows|
    ensures forall r :: r in kept <==> r in rows && Keeps(sel, r)
  {
    if rows == [] then []
    else (if Keeps(sel, rows[0]) then [rows[0]] else []) + ApplyFilters(rows[1..], sel)
  }

  /** Filtering works row by row: it keeps the relative order of the rows and
      filters each part of a sheet on its own. */
  lemma {:induction false} FilterAppend(a: seq<Row>, b: seq<Row>, sel: Selection)
    ensures ApplyFilters(a + b, sel) == ApplyFilters(a, sel) + ApplyFilters(b, sel)
  {
    if a == [] {
      assert a + b == b;
    } else {
      assert (a + b)[0] == a[0] && (a + b)[1..] == a[1..] + b;
      FilterAppend(a[1..], b, sel);
    }
  }

  /** A kept row is kept as many times as it occurs; a dropped row never appears. */
  lemma {:induction false} FilterMultiplicity(rows: seq<Row>, sel: Selection, r: Row)
    ensures multiset(ApplyFilters(rows, sel))[r] == if Keeps(sel, r) then multiset(rows)[r] else 0
  {
    if rows != [] {
      FilterMultiplicity(rows[1..], sel, r);
      assert rows == [rows[0]] + rows[1..];
    }
  }

  /** Selecting "All" in every dropdown shows every row. */
  lemma {:induction false} FilterAllIsIdentity(rows: seq<Row>)
    ensures ApplyFilters(rows, Selection(All, All, All)) == rows
  {
    if rows != [] {
      FilterAllIsIdentity(rows[1..]);
      assert rows == [rows[0]] + rows[1..];
    }
  }

  /** Filtering an already filtered sheet with the same selection changes nothing. */
  lemma {:induction false} FilterIdempotent(rows: seq<Row>, sel: Selection)
    ensures ApplyFilters(ApplyFilters(rows, sel), sel) == ApplyFilters(rows, sel)
  {
    if rows != [] {
      FilterIdempotent(rows[1..], sel);
      FilterAppend(if Keeps(sel, rows[0]) then [rows[0]] else [], ApplyFilters(rows[1..], sel), sel);
    }
  }

  /** The present values of one hierarchy column, in sheet order (`dropna()`). */
  function Present(rows: seq<Row>, l: Level): (vs: seq<string>)
    ensures forall v :: v in vs <==> exists i :: 0 <= i < |rows| && KeyAt(rows[i], l) == Some(v)
  {
    if rows == [] then []
    else
      var rest := Present(rows[1..], l);
      assert forall i :: 1 <= i < |rows| ==> rows[i] == rows[1..][i - 1];
      (if KeyAt(rows[0], l).Some? then [KeyAt(rows[0], l).value] else []) + rest
  }

  /** The options of one dropdown (focus.py:32-34): the Plan sheet's
      distinct values, sorted. They are in increasing order, without repeats,
      and are exactly the values the Plan sheet holds in that column. */
  function Options(plan: seq<Row>, l: Level): (opts: seq<string>)
    ensures StrictlySorted(opts, StringBefore)
    ensures forall v :: v in opts <==> exists i :: 0 <= i < |plan| && KeyAt(plan[i], l) == Some(v)
  {
    StringOrder();
    SortedDistinctSpec(Present(plan, l), StringBefore);
    SortedDistinct(Present(plan, l), StringBefore)
  }

  /** The dropdown: "All" first, then the options. */
  function Choices(plan: seq<Row>, l: Level): (choices: seq<string>)
    ensures |choices| == |Options(plan, l)| + 1 && choices[0] == All
    ensures forall v :: v in choices[1..] <==> exists i :: 0 <= i < |plan| && KeyAt(plan[i], l) == Some(v)
  {
    [All] + Options(plan, l)
  }

  /** Picking one Directorate option, with "All" elsewhere, leaves at least
      the Plan rows that hold it. */
  lemma OptionSelectsRows(plan: seq<Row>, v: string)
    requires v in Options(plan, Directorate)
    ensures ApplyFilters(plan, Selection(v, All, All)) != []
  {
    var i :| 0 <= i < |plan| && KeyAt(plan[i], Directorate) == Some(v);
    assert plan[i] in ApplyFilters(plan, Selection(v, All, All));
  }
}
