/** Forward-filling of the hierarchy columns (focus.py:27-29): a blank
    Directorate, Division or FundType cell means "same as the row above". */
module Normalise {
  import opened Wrappers
  import opened Rows

  /** The value `ffill` gives the cell of row i: the nearest present value at
      or above it, or missing when every cell up to it is blank. */
  function Nearest(s: seq<Row>, i: nat, l: Level): Option<string>
    requires i < |s|
  {
    if KeyAt(s[i], l).Some? then KeyAt(s[i], l)
    else if i == 0 then None
    else Nearest(s, i - 1, l)
  }

  function FilledRow(s: seq<Row>, i: nat): Row
    requires i < |s|
  {
    s[i].(directorate := Nearest(s, i, Directorate),
          division := Nearest(s, i, Division),
          fundType := Nearest(s, i, FundType))
  }

  /** The sheet with its three hierarchy columns forward-filled. */
  function FillKeys(s: seq<Row>): (r: seq<Row>)
    ensures |r| == |s|
    ensures forall i :: 0 <= i < |s| ==> r[i].text == s[i].text && r[i].num == s[i].num
    ensures forall i, l :: 0 <= i < |s| && KeyAt(s[i], l).Some? ==> KeyAt(r[i], l) == KeyAt(s[i], l)
    ensures forall i, l :: 0 <= i < |s| ==> KeyAt(r[i], l) == Nearest(s, i, l)
  {
    seq(|s|, i requires 0 <= i < |s| => FilledRow(s, i))
  }

  /** A filled cell is missing exactly when every cell of its column up to
      and including its row is missing. */
  lemma {:induction false} NearestMissing(s: seq<Row>, i: nat, l: Level)
    requires i < |s|
    ensures Nearest(s, i, l).None? <==> forall j :: 0 <= j <= i ==> KeyAt(s[j], l).None?
  {
    if KeyAt(s[i], l).None? && i > 0 {
      NearestMissing(s, i - 1, l);
    }
  }

  /** A filled cell holds v exactly when v stands in some row j at or above it
      and every cell strictly between j and the row is blank. */
  lemma {:induction false} NearestPresent(s: seq<Row>, i: nat, l: Level, v: string)
    requires i < |s|
    ensures Nearest(s, i, l) == Some(v) <==>
            exists j :: 0 <= j <= i && KeyAt(s[j], l) == Some(v) &&
                        forall m :: j < m <= i ==> KeyAt(s[m], l).None?
  {
    if KeyAt(s[i], l).Some? {
      if Nearest(s, i, l) != Some(v) {
        forall j | 0 <= j <= i && KeyAt(s[j], l) == Some(v)
          ensures exists m :: j < m <= i && KeyAt(s[m], l).Some?
        {
          assert j != i;
        }
      }
    } else if i > 0 {
      NearestPresent(s, i - 1, l, v);
      if Nearest(s, i, l) == Some(v) {
        var j :| 0 <= j <= i - 1 && KeyAt(s[j], l) == Some(v) &&
                 forall m :: j < m <= i - 1 ==> KeyAt(s[m], l).None?;
        assert forall m :: j < m <= i ==> KeyAt(s[m], l).None?;
      } else {
        forall j | 0 <= j <= i && KeyAt(s[j], l) == Some(v)
          ensures exists m :: j < m <= i && KeyAt(s[m], l).Some?
        {
          assert j != i;
          assert !(forall m :: j < m <= i - 1 ==> KeyAt(s[m], l).None?);
          var m :| j < m <= i - 1 && KeyAt(s[m], l).Some?;
          assert j < m <= i;
        }
      }
    }
  }

  lemma {:induction false} NearestOfFilled(s: seq<Row>, i: nat, l: Level)
    requires i < |s|
    ensures Nearest(FillKeys(s), i, l) == Nearest(s, i, l)
  {
    if KeyAt(FillKeys(s)[i], l).None? && i > 0 {
      NearestOfFilled(s, i - 1, l);
      NearestMissing(s, i, l);
      NearestMissing(s, i - 1, l);
    }
  }

  /** Filling twice is filling once. */
  lemma FillKeysIdempotent(s: seq<Row>)
    ensures FillKeys(FillKeys(s)) == FillKeys(s)
  {
    var once := FillKeys(s);
    forall i | 0 <= i < |s| ensures FillKeys(once)[i] == once[i] {
      NearestOfFilled(s, i, Directorate);
      NearestOfFilled(s, i, Division);
      NearestOfFilled(s, i, FundType);
    }
  }
}
