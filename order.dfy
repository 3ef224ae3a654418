/** Orderings used where the dashboard sorts values: the dropdown option lists
    (Python's `sorted` over strings) and the keys of every group-by and pivot
    (pandas sorts group keys). Python compares strings code point by code point,
    a proper prefix coming first; tuples compare field by field. */
module Order {

  /** `less` is a strict total order on T. */
  ghost predicate StrictTotal<T(!new)>(less: (T, T) -> bool) {
    && (forall x :: !less(x, x))
    && (forall x, y, z :: less(x, y) && less(y, z) ==> less(x, z))
    && (forall x, y :: x != y ==> less(x, y) || less(y, x))
  }

  predicate StrictlySorted<T>(s: seq<T>, less: (T, T) -> bool) {
    forall i, j :: 0 <= i < j < |s| ==> less(s[i], s[j])
  }

  /** Adds x to a sorted list that holds no duplicates, keeping it so. */
  function Insert<T(==)>(x: T, s: seq<T>, less: (T, T) -> bool): seq<T> {
    if s == [] then [x]
    else if x == s[0] then s
    else if less(x, s[0]) then [x] + s
    else [s[0]] + Insert(x, s[1..], less)
  }

  /** `sorted(set(xs))`: the distinct values of xs in increasing order. */
  function SortedDistinct<T(==)>(xs: seq<T>, less: (T, T) -> bool): seq<T> {
    if xs == [] then []
    else Insert(xs[|xs| - 1], SortedDistinct(xs[..|xs| - 1], less), less)
  }

  lemma SortedCons<T(!new)>(x: T, s: seq<T>, less: (T, T) -> bool)
    requires StrictlySorted(s, less)
    requires forall y :: y in s ==> less(x, y)
    ensures StrictlySorted([x] + s, less)
  {
    forall i, j | 0 <= i < j < |[x] + s|
      ensures less(([x] + s)[i], ([x] + s)[j])
    {
      if i > 0 {
        assert ([x] + s)[i] == s[i - 1];
      }
      assert ([x] + s)[j] == s[j - 1];
    }
  }

  lemma {:induction false} InsertSpec<T(!new)>(x: T, s: seq<T>, less: (T, T) -> bool)
    requires StrictTotal(less) && StrictlySorted(s, less)
    ensures StrictlySorted(Insert(x, s, less), less)
    ensures forall y :: y in Insert(x, s, less) <==> y == x || y in s
  {
    if s == [] {
    } else if x == s[0] {
    } else if less(x, s[0]) {
      forall y | y in s ensures less(x, y) {
        var j :| 0 <= j < |s| && s[j] == y;
        if j > 0 {
          assert less(s[0], s[j]);
        }
      }
      SortedCons(x, s, less);
    } else {
      var rest := Insert(x, s[1..], less);
      InsertSpec(x, s[1..], less);
      assert less(s[0], x);
      forall y | y in rest ensures less(s[0], y) {
        if y != x {
          var j :| 0 <= j < |s[1..]| && s[1..][j] == y;
          assert s[j + 1] == y;
        }
      }
      SortedCons(s[0], rest, less);
      assert s == [s[0]] + s[1..];
    }
  }

  /** The option lists and group keys: strictly increasing, holding exactly
      the values of the input. */
  lemma {:induction false} SortedDistinctSpec<T(!new)>(xs: seq<T>, less: (T, T) -> bool)
    requires StrictTotal(less)
    ensures StrictlySorted(SortedDistinct(xs, less), less)
    ensures forall y :: y in SortedDistinct(xs, less) <==> y in xs
  {
    if xs != [] {
      var init := xs[..|xs| - 1];
      SortedDistinctSpec(init, less);
      InsertSpec(xs[|xs| - 1], SortedDistinct(init, less), less);
      assert xs == init + [xs[|xs| - 1]];
    }
  }

  /** A strictly sorted list never repeats a value. */
  lemma SortedIsDistinct<T(!new)>(s: seq<T>, less: (T, T) -> bool)
    requires StrictTotal(less) && StrictlySorted(s, less)
    ensures forall i, j :: 0 <= i < |s| && 0 <= j < |s| && i != j ==> s[i] != s[j]
  {
    forall i, j | 0 <= i < |s| && 0 <= j < |s| && i != j
      ensures s[i] != s[j]
    {
      if i < j {
        assert less(s[i], s[j]);
      } else {
        assert less(s[j], s[i]);
      }
    }
  }

  lemma SortedHeadLeast<T(!new)>(s: seq<T>, less: (T, T) -> bool)
    requires StrictlySorted(s, less) && s != []
    ensures forall y :: y in s ==> y == s[0] || less(s[0], y)
  {
    forall y | y in s ensures y == s[0] || less(s[0], y) {
      var i :| 0 <= i < |s| && s[i] == y;
      if i > 0 {
        assert less(s[0], s[i]);
      }
    }
  }

  lemma NonEmptyOver<T>(a: seq<T>, b: seq<T>)
    requires forall y :: y in b ==> y in a
    ensures b != [] ==> a != []
  {
    if b != [] {
      assert b[0] in b;
    }
  }

  /** Two strictly sorted lists with the same elements are the same list. */
  lemma {:induction false} SortedUnique<T(!new)>(a: seq<T>, b: seq<T>, less: (T, T) -> bool)
    requires StrictTotal(less)
    requires StrictlySorted(a, less) && StrictlySorted(b, less)
    requires forall y :: y in a <==> y in b
    ensures a == b
  {
    if a == [] {
      NonEmptyOver(a, b);
    } else {
      assert a[0] in b;
      assert b != [];
      assert b[0] in a;
      SortedHeadLeast(a, less);
      SortedHeadLeast(b, less);
      if a[0] != b[0] {
        assert false;
      }
      forall y ensures y in a[1..] <==> y in b[1..] {
        if y in a[1..] {
          var i :| 1 <= i < |a| && a[i] == y;
          assert less(a[0], y);
          assert y in b;
          assert y != b[0];
          var j :| 0 <= j < |b| && b[j] == y;
          assert j > 0;
          assert y == b[1..][j - 1];
        }
        if y in b[1..] {
          var j :| 1 <= j < |b| && b[j] == y;
          assert less(b[0], y);
          assert y in a;
          var i :| 0 <= i < |a| && a[i] == y;
          assert i > 0;
          assert y == a[1..][i - 1];
        }
      }
      SortedUnique(a[1..], b[1..], less);
      assert a == [a[0]] + a[1..] && b == [b[0]] + b[1..];
    }
  }

  /** Sorting the distinct values depends only on which values occur. */
  lemma SortedDistinctSameValues<T(!new)>(xs: seq<T>, ys: seq<T>, less: (T, T) -> bool)
    requires StrictTotal(less)
    requires forall y :: y in xs <==> y in ys
    ensures SortedDistinct(xs, less) == SortedDistinct(ys, less)
  {
    SortedDistinctSpec(xs, less);
    SortedDistinctSpec(ys, less);
    SortedUnique(SortedDistinct(xs, less), SortedDistinct(ys, less), less);
  }

  /** Python's `<` on `str`: lexicographic by code point, a proper prefix first. */
  predicate StringBefore(a: string, b: string) {
    if a == [] then b != []
    else if b == [] then false
    else if a[0] != b[0] then a[0] < b[0]
    else StringBefore(a[1..], b[1..])
  }

  lemma {:induction false} StringBeforeIrreflexive(a: string)
    ensures !StringBefore(a, a)
  {
    if a != [] {
      StringBeforeIrreflexive(a[1..]);
    }
  }

  lemma {:induction false} StringBeforeTransitive(a: string, b: string, c: string)
    requires StringBefore(a, b) && StringBefore(b, c)
    ensures StringBefore(a, c)
  {
    if a != [] && b != [] && c != [] && a[0] == b[0] && b[0] == c[0] {
      StringBeforeTransitive(a[1..], b[1..], c[1..]);
    }
  }

  lemma {:induction false} StringBeforeConnected(a: string, b: string)
    requires a != b
    ensures StringBefore(a, b) || StringBefore(b, a)
  {
    if a != [] && b != [] && a[0] == b[0] {
      assert a == [a[0]] + a[1..] && b == [b[0]] + b[1..];
      StringBeforeConnected(a[1..], b[1..]);
    }
  }

  lemma StringOrder()
    ensures StrictTotal(StringBefore)
  {
    forall a ensures !StringBefore(a, a) {
      StringBeforeIrreflexive(a);
    }
    forall a, b, c | StringBefore(a, b) && StringBefore(b, c)
      ensures StringBefore(a, c)
    {
      StringBeforeTransitive(a, b, c);
    }
    forall a, b | a != b ensures StringBefore(a, b) || StringBefore(b, a) {
      StringBeforeConnected(a, b);
    }
  }

  /** Tuple order: by the first field, then by the second. */
  function Lex<A(==), B>(lessA: (A, A) -> bool, lessB: (B, B) -> bool): ((A, B), (A, B)) -> bool {
    (p: (A, B), q: (A, B)) => lessA(p.0, q.0) || (p.0 == q.0 && lessB(p.1, q.1))
  }

  lemma LexOrder<A(!new), B(!new)>(lessA: (A, A) -> bool, lessB: (B, B) -> bool)
    requires StrictTotal(lessA) && StrictTotal(lessB)
    ensures StrictTotal(Lex(lessA, lessB))
  {
    var less := Lex(lessA, lessB);
    forall p, q, r | less(p, q) && less(q, r) ensures less(p, r) {
      assert lessA(p.0, q.0) || (p.0 == q.0 && lessB(p.1, q.1));
      assert lessA(q.0, r.0) || (q.0 == r.0 && lessB(q.1, r.1));
      if p.0 == q.0 && q.0 == r.0 {
        assert lessB(p.1, r.1);
      } else {
        assert lessA(p.0, r.0);
      }
    }
    forall p: (A, B), q: (A, B) | p != q ensures less(p, q) || less(q, p) {
      if p.0 == q.0 {
        assert p.1 != q.1;
      }
    }
  }

  /** The order of (Directorate, Division) group keys. */
  function PairBefore(): ((string, string), (string, string)) -> bool {
    Lex(StringBefore, StringBefore)
  }

  lemma PairOrder()
    ensures StrictTotal(PairBefore())
  {
    StringOrder();
    LexOrder(StringBefore, StringBefore);
  }
}
