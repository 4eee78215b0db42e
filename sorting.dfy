/** pandas' `sort_values` over several key columns: a stable sort on the key tuple, every
    column ascending or every column descending, and a missing key (NaN) placed last in
    either direction. */
module Sorting {
  import opened Wrappers

  /** One sort column: present keys in the requested direction, then the missing ones. */
  predicate CellBefore(a: Option<int>, b: Option<int>, ascending: bool) {
    match (a, b)
    case (Some(x), Some(y)) => if ascending then x < y else x > y
    case (Some(_), None) => true
    case _ => false
  }

  /** The key tuples compared column by column, the first column that differs deciding. */
  predicate KeyBefore(a: seq<Option<int>>, b: seq<Option<int>>, ascending: bool)
    decreases |a|
  {
    if |a| == 0 then |b| > 0
    else if |b| == 0 then false
    else if a[0] != b[0] then CellBefore(a[0], b[0], ascending)
    else KeyBefore(a[1..], b[1..], ascending)
  }

  lemma CellBeforeTotal(a: Option<int>, b: Option<int>, ascending: bool)
    ensures !CellBefore(a, a, ascending)
    ensures a != b ==> (CellBefore(a, b, ascending) <==> !CellBefore(b, a, ascending))
  {
  }

  lemma {:induction false} KeyBeforeIrreflexive(a: seq<Option<int>>, ascending: bool)
    ensures !KeyBefore(a, a, ascending)
    decreases |a|
  {
    if |a| > 0 {
      KeyBeforeIrreflexive(a[1..], ascending);
    }
  }

  /** Distinct key tuples are ordered one way exactly. */
  lemma {:induction false} KeyBeforeTotal(a: seq<Option<int>>, b: seq<Option<int>>, ascending: bool)
    ensures a != b ==> (KeyBefore(a, b, ascending) <==> !KeyBefore(b, a, ascending))
    decreases |a|
  {
    if |a| > 0 && |b| > 0 && a[0] == b[0] {
      KeyBeforeTotal(a[1..], b[1..], ascending);
      if a[1..] == b[1..] {
        assert a == [a[0]] + a[1..] && b == [b[0]] + b[1..];
      }
    } else if |a| > 0 && |b| > 0 {
      CellBeforeTotal(a[0], b[0], ascending);
    }
  }

  lemma {:induction false} KeyBeforeTransitive(a: seq<Option<int>>, b: seq<Option<int>>, c: seq<Option<int>>, ascending: bool)
    requires KeyBefore(a, b, ascending) && KeyBefore(b, c, ascending)
    ensures KeyBefore(a, c, ascending)
    decreases |a|
  {
    if |a| > 0 && a[0] == b[0] && b[0] == c[0] {
      KeyBeforeTransitive(a[1..], b[1..], c[1..], ascending);
    }
  }

  /** A row of the frame being sorted, together with its sort key. */
  datatype Keyed<T> = Keyed(key: seq<Option<int>>, item: T)

  /** No element is strictly before an element that precedes it. */
  predicate Sorted<T>(s: seq<Keyed<T>>, ascending: bool) {
    forall i, j :: 0 <= i < j < |s| ==> !KeyBefore(s[j].key, s[i].key, ascending)
  }

  /** The elements carrying the key `k`, in order. */
  function WithKey<T>(s: seq<Keyed<T>>, k: seq<Option<int>>): seq<Keyed<T>> {
    if s == [] then []
    else WithKey(s[..|s| - 1], k) + (if s[|s| - 1].key == k then [s[|s| - 1]] else [])
  }

  /** Places `x` after every element that is not strictly after it. */
  function Insert<T>(s: seq<Keyed<T>>, x: Keyed<T>, ascending: bool): (r: seq<Keyed<T>>)
    ensures |r| == |s| + 1
  {
    if s == [] then [x]
    else if KeyBefore(x.key, s[|s| - 1].key, ascending) then Insert(s[..|s| - 1], x, ascending) + [s[|s| - 1]]
    else s + [x]
  }

  /** The stable sort. */
  function Sort<T>(s: seq<Keyed<T>>, ascending: bool): (r: seq<Keyed<T>>)
    ensures |r| == |s|
  {
    if s == [] then [] else Insert(Sort(s[..|s| - 1], ascending), s[|s| - 1], ascending)
  }

  lemma {:induction false} InsertPermutes<T>(s: seq<Keyed<T>>, x: Keyed<T>, ascending: bool)
    ensures multiset(Insert(s, x, ascending)) == multiset(s) + multiset{x}
  {
    if s != [] && KeyBefore(x.key, s[|s| - 1].key, ascending) {
      var p := s[..|s| - 1];
      InsertPermutes(p, x, ascending);
      assert s == p + [s[|s| - 1]];
    }
  }

  lemma {:induction false} InsertSorted<T>(s: seq<Keyed<T>>, x: Keyed<T>, ascending: bool)
    requires Sorted(s, ascending)
    ensures Sorted(Insert(s, x, ascending), ascending)
  {
    if s != [] {
      var p, l := s[..|s| - 1], s[|s| - 1];
      assert s == p + [l];
      if KeyBefore(x.key, l.key, ascending) {
        var q := Insert(p, x, ascending);
        assert Sorted(p, ascending) by {
          forall i, j | 0 <= i < j < |p| ensures !KeyBefore(p[j].key, p[i].key, ascending) {
            assert p[i] == s[i] && p[j] == s[j];
          }
        }
        InsertSorted(p, x, ascending);
        InsertBelowLast(p, l, x, ascending);
        assert Sorted(q, ascending);
        assert forall i :: 0 <= i < |q| ==> !KeyBefore(l.key, q[i].key, ascending);
        SortedSnoc(q, l, ascending);
      } else {
        AfterLast(s, x, ascending);
        SortedSnoc(s, x, ascending);
      }
    }
  }

  /** Appending an element that nothing before it is strictly after keeps a sorted sequence sorted. */
  lemma SortedSnoc<T>(s: seq<Keyed<T>>, x: Keyed<T>, ascending: bool)
    requires Sorted(s, ascending)
    requires forall i :: 0 <= i < |s| ==> !KeyBefore(x.key, s[i].key, ascending)
    ensures Sorted(s + [x], ascending)
  {
    var t := s + [x];
    forall i, j | 0 <= i < j < |t|
      ensures !KeyBefore(t[j].key, t[i].key, ascending)
    {
      if j < |s| {
        assert t[i] == s[i] && t[j] == s[j];
      } else {
        assert t[i] == s[i] && t[j] == x;
      }
    }
  }

  /** An element not before the last of a sorted sequence is before none of it. */
  lemma AfterLast<T>(s: seq<Keyed<T>>, x: Keyed<T>, ascending: bool)
    requires s != [] && Sorted(s, ascending)
    requires !KeyBefore(x.key, s[|s| - 1].key, ascending)
    ensures forall i :: 0 <= i < |s| ==> !KeyBefore(x.key, s[i].key, ascending)
  {
    var l := s[|s| - 1];
    forall i | 0 <= i < |s| - 1
      ensures !KeyBefore(x.key, s[i].key, ascending)
    {
      if KeyBefore(x.key, s[i].key, ascending) {
        KeyBeforeTotal(x.key, l.key, ascending);
        if x.key != l.key {
          KeyBeforeTransitive(l.key, x.key, s[i].key, ascending);
        }
      }
    }
  }

  /** `Insert` only adds `x`. */
  lemma {:induction false} InsertMembers<T>(s: seq<Keyed<T>>, x: Keyed<T>, ascending: bool)
    ensures forall y :: y in Insert(s, x, ascending) ==> y == x || y in s
  {
    if s != [] && KeyBefore(x.key, s[|s| - 1].key, ascending) {
      var p := s[..|s| - 1];
      InsertMembers(p, x, ascending);
      assert s == p + [s[|s| - 1]];
    }
  }

  /** When `x` goes before the last element `l`, `l` is after everything the rest becomes. */
  lemma InsertBelowLast<T>(p: seq<Keyed<T>>, l: Keyed<T>, x: Keyed<T>, ascending: bool)
    requires Sorted(p + [l], ascending) && KeyBefore(x.key, l.key, ascending)
    ensures forall i :: 0 <= i < |p| + 1 ==> !KeyBefore(l.key, Insert(p, x, ascending)[i].key, ascending)
  {
    var q := Insert(p, x, ascending);
    InsertMembers(p, x, ascending);
    forall i | 0 <= i < |q|
      ensures !KeyBefore(l.key, q[i].key, ascending)
    {
      assert q[i] in q;
      if q[i] == x {
        KeyBeforeTotal(x.key, l.key, ascending);
        KeyBeforeIrreflexive(x.key, ascending);
      } else {
        var m :| 0 <= m < |p| && p[m] == q[i];
        assert (p + [l])[m] == q[i] && (p + [l])[|p|] == l;
      }
    }
  }

  lemma {:induction false} WithKeyAppend<T>(a: seq<Keyed<T>>, b: seq<Keyed<T>>, k: seq<Option<int>>)
    ensures WithKey(a + b, k) == WithKey(a, k) + WithKey(b, k)
    decreases |b|
  {
    if b == [] {
      assert a + b == a;
    } else {
      var n := |b| - 1;
      assert (a + b)[..|a + b| - 1] == a + b[..n];
      WithKeyAppend(a, b[..n], k);
    }
  }

  /** `x` goes after every element of its own key, so each key's elements keep their order. */
  lemma {:induction false} InsertStable<T>(s: seq<Keyed<T>>, x: Keyed<T>, k: seq<Option<int>>, ascending: bool)
    ensures WithKey(Insert(s, x, ascending), k) == WithKey(s, k) + (if x.key == k then [x] else [])
  {
    if s != [] && KeyBefore(x.key, s[|s| - 1].key, ascending) {
      var p, l := s[..|s| - 1], s[|s| - 1];
      var q := Insert(p, x, ascending);
      InsertStable(p, x, k, ascending);
      KeyBeforeIrreflexive(x.key, ascending);
      assert x.key != l.key;
      assert s == p + [l];
      assert Insert(s, x, ascending) == q + [l];
      WithKeySnoc(q, l, k);
      WithKeySnoc(p, l, k);
      if x.key == k {
        assert WithKey(s, k) == WithKey(p, k);
      } else {
        assert WithKey(q, k) == WithKey(p, k);
      }
    } else {
      WithKeySnoc(s, x, k);
    }
  }

  /** Appending one element adds it to the elements of its own key. */
  lemma WithKeySnoc<T>(s: seq<Keyed<T>>, l: Keyed<T>, k: seq<Option<int>>)
    ensures WithKey(s + [l], k) == WithKey(s, k) + (if l.key == k then [l] else [])
  {
    assert (s + [l])[..|s|] == s;
  }

  /** The sort returns its input rearranged, in key order, and rows with equal keys in their
      input order. */
  lemma SortCorrect<T>(s: seq<Keyed<T>>, ascending: bool)
    ensures multiset(Sort(s, ascending)) == multiset(s)
    ensures Sorted(Sort(s, ascending), ascending)
    ensures forall k :: WithKey(Sort(s, ascending), k) == WithKey(s, k)
  {
    SortPermutes(s, ascending);
    SortSorted(s, ascending);
    forall k
      ensures WithKey(Sort(s, ascending), k) == WithKey(s, k)
    {
      SortStable(s, k, ascending);
    }
  }

  lemma {:induction false} SortPermutes<T>(s: seq<Keyed<T>>, ascending: bool)
    ensures multiset(Sort(s, ascending)) == multiset(s)
  {
    if s != [] {
      var p, l := s[..|s| - 1], s[|s| - 1];
      SortPermutes(p, ascending);
      InsertPermutes(Sort(p, ascending), l, ascending);
      assert Sort(s, ascending) == Insert(Sort(p, ascending), l, ascending);
      assert s == p + [l];
      assert multiset(s) == multiset(p) + multiset{l};
    }
  }

  lemma {:induction false} SortSorted<T>(s: seq<Keyed<T>>, ascending: bool)
    ensures Sorted(Sort(s, ascending), ascending)
  {
    if s != [] {
      var p, l := s[..|s| - 1], s[|s| - 1];
      SortSorted(p, ascending);
      InsertSorted(Sort(p, ascending), l, ascending);
    }
  }

  lemma {:induction false} SortStable<T>(s: seq<Keyed<T>>, k: seq<Option<int>>, ascending: bool)
    ensures WithKey(Sort(s, ascending), k) == WithKey(s, k)
  {
    if s != [] {
      var p, l := s[..|s| - 1], s[|s| - 1];
      SortStable(p, k, ascending);
      InsertStable(Sort(p, ascending), l, k, ascending);
    }
  }

  /** The rows without their keys: the helper columns dropped after the sort. */
  function Items<T>(ks: seq<Keyed<T>>): (rows: seq<T>)
    ensures |rows| == |ks|
    ensures forall i :: 0 <= i < |ks| ==> rows[i] == ks[i].item
  {
    seq(|ks|, i requires 0 <= i < |ks| => ks[i].item)
  }

  lemma ItemsAppend<T>(a: seq<Keyed<T>>, b: seq<Keyed<T>>)
    ensures Items(a + b) == Items(a) + Items(b)
  {
  }

  lemma MultisetCancel<T>(a: multiset<T>, b: multiset<T>, x: T)
    requires a + multiset{x} == b + multiset{x}
    ensures a == b
  {
    assert forall y :: a[y] == (a + multiset{x})[y] - multiset{x}[y];
  }

  /** Rearranging the keyed rows rearranges the rows. */
  lemma {:induction false} ItemsPermute<T>(a: seq<Keyed<T>>, b: seq<Keyed<T>>)
    requires multiset(a) == multiset(b)
    ensures multiset(Items(a)) == multiset(Items(b))
    decreases |a|
  {
    if a != [] {
      var n := |a| - 1;
      var x := a[n];
      assert a == a[..n] + [x];
      assert x in multiset(b);
      var j :| 0 <= j < |b| && b[j] == x;
      var front, back := b[..j], b[j + 1..];
      assert b == front + [x] + back;
      var b' := front + back;
      assert multiset(b) == multiset(b') + multiset{x};
      MultisetCancel(multiset(a[..n]), multiset(b'), x);
      ItemsPermute(a[..n], b');
      ItemsAppend(a[..n], [x]);
      ItemsAppend(front + [x], back);
      ItemsAppend(front, [x]);
      ItemsAppend(front, back);
    }
  }
}
