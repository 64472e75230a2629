/** Sums over maps, and stable sorting: the batch side of the streaming aggregates. */
module Sums {
  ghost function MapSum<K>(m: map<K, int>): int {
    if m == map[] then 0
    else
      var k :| k in m;
      m[k] + MapSum(m - {k})
  }

  /** Any key may be split off. */
  lemma {:induction false} MapSumSplit<K>(m: map<K, int>, k: K)
    requires k in m
    ensures MapSum(m) == m[k] + MapSum(m - {k})
    decreases |m|
  {
    var p :| p in m && MapSum(m) == m[p] + MapSum(m - {p});
    if p != k {
      MapSumSplit(m - {p}, k);
      MapSumSplit(m - {k}, p);
      assert m - {p} - {k} == m - {k} - {p};
    }
  }

  /** Effect of writing one key. */
  lemma MapSumSet<K>(m: map<K, int>, k: K, v: int)
    ensures MapSum(m[k := v]) == MapSum(m) - (if k in m then m[k] else 0) + v
  {
    var n := m[k := v];
    MapSumSplit(n, k);
    assert n - {k} == m - {k};
    if k in m { MapSumSplit(m, k); } else { assert m - {k} == m; }
  }

  /** Insert before the first element that is not smaller. */
  function Inserted<T>(x: T, s: seq<T>, le: (T, T) -> bool): (r: seq<T>)
    ensures multiset(r) == multiset{x} + multiset(s)
  {
    if s == [] || le(x, s[0]) then [x] + s
    else
      assert s == [s[0]] + s[1..];
      [s[0]] + Inserted(x, s[1..], le)
  }

  /** A stable sort. */
  function SortedBy<T>(s: seq<T>, le: (T, T) -> bool): (r: seq<T>)
    ensures multiset(r) == multiset(s)
  {
    if s == [] then []
    else
      assert s == [s[0]] + s[1..];
      Inserted(s[0], SortedBy(s[1..], le), le)
  }

  ghost predicate IsSorted<T>(s: seq<T>, le: (T, T) -> bool) {
    forall i, j | 0 <= i < j < |s| :: le(s[i], s[j])
  }

  ghost predicate TotalPreorder<T(!new)>(le: (T, T) -> bool) {
    && (forall x, y :: le(x, y) || le(y, x))
    && (forall x, y, z :: le(x, y) && le(y, z) ==> le(x, z))
  }

  lemma {:induction false} InsertedIsSorted<T(!new)>(x: T, s: seq<T>, le: (T, T) -> bool)
    requires TotalPreorder(le) && IsSorted(s, le)
    ensures IsSorted(Inserted(x, s, le), le)
  {
    if s != [] && !le(x, s[0]) {
      var rest := Inserted(x, s[1..], le);
      InsertedIsSorted(x, s[1..], le);
      forall i | 0 <= i < |rest| ensures le(s[0], rest[i]) {
        assert rest[i] in multiset(rest);
        assert rest[i] == x || rest[i] in s[1..];
      }
    }
  }

  lemma {:induction false} SortedByIsSorted<T(!new)>(s: seq<T>, le: (T, T) -> bool)
    requires TotalPreorder(le)
    ensures IsSorted(SortedBy(s, le), le)
  {
    if s != [] {
      SortedByIsSorted(s[1..], le);
      InsertedIsSorted(s[0], SortedBy(s[1..], le), le);
    }
  }

  ghost predicate StrictlySorted<T(!new)>(s: seq<T>, le: (T, T) -> bool) {
    forall i, j | 0 <= i < j < |s| :: le(s[i], s[j]) && !le(s[j], s[i])
  }

  lemma HeadsEqual<T(!new)>(a: seq<T>, b: seq<T>, le: (T, T) -> bool)
    requires IsSorted(b, le) && StrictlySorted(a, le)
    requires a != [] && b != [] && a[0] in b && b[0] in a
    ensures a[0] == b[0]
  {
    var k :| 0 <= k < |b| && b[k] == a[0];
    var i :| 0 <= i < |a| && a[i] == b[0];
    assert forall j | 0 < j < |a| :: !le(a[j], a[0]);
    assert forall j | 0 < j < |b| :: le(b[0], b[j]);
  }

  /** A list whose elements are pairwise strictly ordered is what sorting any rearrangement gives. */
  lemma {:induction false} SortingRestores<T(!new)>(a: seq<T>, b: seq<T>, le: (T, T) -> bool)
    requires IsSorted(b, le) && StrictlySorted(a, le)
    requires multiset(a) == multiset(b)
    ensures a == b
  {
    assert |multiset(a)| == |a| && |multiset(b)| == |b|;
    if a != [] {
      assert a[0] in multiset(b) && b[0] in multiset(a);
      HeadsEqual(a, b, le);
      TailsSorted(a, b, le);
      hide IsSorted, StrictlySorted;
      TailMultiset(a);
      TailMultiset(b);
      SortingRestores(a[1..], b[1..], le);
      assert a == [a[0]] + a[1..] && b == [b[0]] + b[1..];
    }
  }

  lemma TailMultiset<T>(s: seq<T>)
    requires s != []
    ensures multiset(s[1..]) == multiset(s) - multiset{s[0]}
  {
    assert s == [s[0]] + s[1..];
  }

  lemma TailsSorted<T(!new)>(a: seq<T>, b: seq<T>, le: (T, T) -> bool)
    requires IsSorted(b, le) && StrictlySorted(a, le) && a != [] && b != []
    ensures IsSorted(b[1..], le) && StrictlySorted(a[1..], le)
  {
  }
}
