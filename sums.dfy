/** Group-by sums. Every aggregation of the dashboard (`groupby(...).sum()`,
    `pivot_table(..., aggfunc='sum')`) sees a table as a list of entries:
    the row's group key, `None` when a key cell is missing (pandas drops such
    rows from the groups), and the amount it contributes. */
module Sums {
  import opened Wrappers

  /** The sum of the amounts of the entries whose key is k. */
  function SumWhere<K(==)>(es: seq<(Option<K>, real)>, k: K): real {
    if es == [] then 0.0
    else (if es[0].0 == Some(k) then es[0].1 else 0.0) + SumWhere(es[1..], k)
  }

  /** The sum of the amounts of the entries that belong to some group. */
  function SumKeyed<K>(es: seq<(Option<K>, real)>): real {
    if es == [] then 0.0
    else (if es[0].0.Some? then es[0].1 else 0.0) + SumKeyed(es[1..])
  }

  /** The keys present in the entries, in order, with repetitions. */
  function KeysOf<K(!new)>(es: seq<(Option<K>, real)>): (ks: seq<K>)
    ensures forall k :: k in ks <==> Some(k) in Keys(es)
  {
    if es == [] then []
    else
      assert Keys(es) == [es[0].0] + Keys(es[1..]);
      (if es[0].0.Some? then [es[0].0.value] else []) + KeysOf(es[1..])
  }

  function Keys<K>(es: seq<(Option<K>, real)>): seq<Option<K>> {
    seq(|es|, i requires 0 <= i < |es| => es[i].0)
  }

  function SumOverKeys<K(==)>(ks: seq<K>, es: seq<(Option<K>, real)>): real {
    if ks == [] then 0.0 else SumWhere(es, ks[0]) + SumOverKeys(ks[1..], es)
  }

  predicate Distinct<T(==)>(s: seq<T>) {
    forall i, j :: 0 <= i < |s| && 0 <= j < |s| && i != j ==> s[i] != s[j]
  }

  /** The total of an entry spread over a list of keys. */
  function Hits<K(==)>(ks: seq<K>, e: (Option<K>, real)): real {
    if ks == [] then 0.0 else (if e.0 == Some(ks[0]) then e.1 else 0.0) + Hits(ks[1..], e)
  }

  /** Over distinct keys an entry is counted once if its key is listed, else not at all. */
  lemma {:induction false} HitsDistinct<K>(ks: seq<K>, e: (Option<K>, real))
    requires Distinct(ks)
    ensures Hits(ks, e) == if e.0.Some? && e.0.value in ks then e.1 else 0.0
  {
    if ks != [] {
      assert Distinct(ks[1..]) by {
        forall i, j | 0 <= i < |ks[1..]| && 0 <= j < |ks[1..]| && i != j
          ensures ks[1..][i] != ks[1..][j]
        {
          assert ks[1..][i] == ks[i + 1] && ks[1..][j] == ks[j + 1];
        }
      }
      HitsDistinct(ks[1..], e);
      if e.0 == Some(ks[0]) {
        assert ks[0] !in ks[1..] by {
          forall j | 0 <= j < |ks[1..]| ensures ks[1..][j] != ks[0] {
            assert ks[1..][j] == ks[j + 1];
          }
        }
      }
      assert ks == [ks[0]] + ks[1..];
    }
  }

  lemma {:induction false} SumOverKeysCons<K>(ks: seq<K>, e: (Option<K>, real), es: seq<(Option<K>, real)>)
    ensures SumOverKeys(ks, [e] + es) == Hits(ks, e) + SumOverKeys(ks, es)
  {
    if ks != [] {
      assert ([e] + es)[1..] == es;
      SumOverKeysCons(ks[1..], e, es);
    }
  }

  /** Summing the groups over a list of distinct keys that covers every present
      key gives back the sum of every entry that belongs to a group: grouping
      neither loses nor double-counts an amount. */
  lemma {:induction false} SumOverDistinctKeys<K>(ks: seq<K>, es: seq<(Option<K>, real)>)
    requires Distinct(ks)
    requires forall i :: 0 <= i < |es| && es[i].0.Some? ==> es[i].0.value in ks
    ensures SumOverKeys(ks, es) == SumKeyed(es)
  {
    if es == [] {
      SumOverKeysEmpty(ks);
    } else {
      assert es == [es[0]] + es[1..];
      SumOverKeysCons(ks, es[0], es[1..]);
      HitsDistinct(ks, es[0]);
      SumOverDistinctKeys(ks, es[1..]);
    }
  }

  lemma {:induction false} SumOverKeysEmpty<K>(ks: seq<K>)
    ensures SumOverKeys(ks, []) == 0.0
  {
    if ks != [] {
      SumOverKeysEmpty(ks[1..]);
    }
  }

  /** An entry list with no entry for k sums to 0 at k (pandas' `fill_value=0`). */
  lemma {:induction false} SumWhereAbsent<K>(es: seq<(Option<K>, real)>, k: K)
    requires Some(k) !in Keys(es)
    ensures SumWhere(es, k) == 0.0
  {
    if es != [] {
      assert Keys(es) == [es[0].0] + Keys(es[1..]);
      SumWhereAbsent(es[1..], k);
    }
  }

  /** Column arithmetic done row by row carries over to the group sums. */
  lemma {:induction false} SumWhereAdd<K>(a: seq<(Option<K>, real)>, b: seq<(Option<K>, real)>,
                                         c: seq<(Option<K>, real)>, k: K)
    requires |a| == |b| == |c|
    requires forall i :: 0 <= i < |c| ==> c[i].0 == a[i].0 == b[i].0 && c[i].1 == a[i].1 + b[i].1
    ensures SumWhere(c, k) == SumWhere(a, k) + SumWhere(b, k)
  {
    if c != [] {
      SumWhereAdd(a[1..], b[1..], c[1..], k);
    }
  }

  lemma {:induction false} SumWhereSub<K>(a: seq<(Option<K>, real)>, b: seq<(Option<K>, real)>,
                                         c: seq<(Option<K>, real)>, k: K)
    requires |a| == |b| == |c|
    requires forall i :: 0 <= i < |c| ==> c[i].0 == a[i].0 == b[i].0 && c[i].1 == a[i].1 - b[i].1
    ensures SumWhere(c, k) == SumWhere(a, k) - SumWhere(b, k)
  {
    if c != [] {
      SumWhereSub(a[1..], b[1..], c[1..], k);
    }
  }
}
