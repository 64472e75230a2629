/** Values shared by every module: optional values and ordered views of maps. */
module Options {
  datatype Option<+T> = None | Some(value: T)
}

/** Natural numbers, and division facts that the solver does not find by itself. */
module Arithmetic {
  function Larger(a: nat, b: nat): nat {
    if a < b then b else a
  }

  function Smaller(a: nat, b: nat): nat {
    if a < b then a else b
  }

  /** Subtraction that stops at zero. */
  function Saturating(a: nat, b: nat): nat {
    if a < b then 0 else a - b
  }

  lemma ProductMonotone(d: nat, a: nat, b: nat)
    requires a <= b
    ensures d * a <= d * b
  {
    assert d * b == d * a + d * (b - a);
  }

  lemma QuotientUnique(n: nat, d: nat, q: nat, s: nat, k: nat, r: nat)
    requires n == d * q + s && s < d
    requires n == d * k + r && r < d
    ensures q == k && s == r
  {
    if q < k { ProductMonotone(d, q + 1, k); }
    if k < q { ProductMonotone(d, k + 1, q); }
  }

  lemma QuotientOf(d: nat, k: nat, r: nat)
    requires r < d
    ensures (d * k + r) / d == k && (d * k + r) % d == r
  {
    var n := d * k + r;
    QuotientUnique(n, d, n / d, n % d, k, r);
  }

  /** Two different multiples of `n` are at least `n` apart. */
  lemma MultiplesApart(a: nat, b: nat, n: nat)
    requires n > 0 && a % n == 0 && b % n == 0 && a < b
    ensures a + n <= b
  {
    var p, q := a / n, b / n;
    if q <= p { ProductMonotone(n, q, p); }
    ProductMonotone(n, p + 1, q);
  }
}

/** The ordered views that the program takes of its B-tree maps and of keyed lists. */
module Ordering {
  import opened Options

  ghost predicate StrictlyAscending(s: seq<nat>) {
    forall i, j | 0 <= i < j < |s| :: s[i] < s[j]
  }

  function Members(s: seq<nat>): (r: set<nat>)
    ensures forall i :: i in r <==> i in s
  {
    set i | i in s
  }

  lemma {:induction false} LeastExists(s: set<nat>, z: nat)
    requires z in s
    ensures exists x :: x in s && forall y | y in s :: x <= y
    decreases z
  {
    if y :| y in s && y < z {
      LeastExists(s, y);
    }
  }

  lemma {:induction false} GreatestExists(s: set<nat>, z: nat, above: set<nat>)
    requires z in s && forall y | y in s && y > z :: y in above
    ensures exists x :: x in s && forall y | y in s :: y <= x
    decreases above
  {
    if y :| y in s && y > z {
      GreatestExists(s, y, above - {y});
    }
  }

  /** First key of an ordered map. */
  function LeastKey(s: set<nat>): (r: Option<nat>)
    ensures r.None? <==> s == {}
    ensures r.Some? ==> r.value in s && forall y | y in s :: r.value <= y
  {
    if s == {} then None
    else
      LeastExists(s, var z :| z in s; z);
      var x :| x in s && forall y | y in s :: x <= y;
      Some(x)
  }

  /** Last key of an ordered map. */
  function GreatestKey(s: set<nat>): (r: Option<nat>)
    ensures r.None? <==> s == {}
    ensures r.Some? ==> r.value in s && forall y | y in s :: y <= r.value
  {
    if s == {} then None
    else
      GreatestExists(s, var z :| z in s; z, s);
      var x :| x in s && forall y | y in s :: y <= x;
      Some(x)
  }

  /** The keys of a set in ascending order: the iteration order of a B-tree map. */
  function Ascending(s: set<nat>): (r: seq<nat>)
    ensures StrictlyAscending(r)
    ensures |r| == |s|
    ensures forall x :: x in r <==> x in s
  {
    if s == {} then []
    else
      var least := LeastKey(s).value;
      [least] + Ascending(s - {least})
  }

  /** Two strictly ascending sequences with the same members are equal. */
  lemma {:induction false} AscendingUnique(a: seq<nat>, b: seq<nat>)
    requires StrictlyAscending(a) && StrictlyAscending(b)
    requires forall x :: x in a <==> x in b
    ensures a == b
  {
    assert forall i | 0 <= i < |b| :: b[i] in a;
    assert forall i | 0 <= i < |a| :: a[i] in b;
    if a != [] && b != [] {
      assert a[0] in b && b[0] in a;
      assert a[0] == b[0];
      forall x ensures x in a[1..] <==> x in b[1..] {
        if x in a[1..] { assert x in a && x > a[0]; }
        if x in b[1..] { assert x in b && x > b[0]; }
      }
      AscendingUnique(a[1..], b[1..]);
    }
  }
}
