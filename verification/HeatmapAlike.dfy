/** Heatmaps that differ in their absorption counts only. */
module HeatmapAlike {
  import opened Heatmaps
  import opened Options
  import F = Flow

  /** The cell at a place, new if there is none, without its absorption count and its place. */
  function Core(g: Grid, start: nat, price: nat): Cell {
    CellAt(RowAt(g, start), price).(absorptions := 0, bucket := None, price := price)
  }

  ghost predicate Alike(a: Grid, b: Grid) {
    forall start, price :: Core(a, start, price) == Core(b, start, price)
  }

  lemma CellAfterCore(c: Cell, d: Cell, x: Feed)
    requires c.(absorptions := 0) == d.(absorptions := 0)
    ensures CellAfter(c, x).(absorptions := 0) == CellAfter(d, x).(absorptions := 0)
  {
  }

  lemma AbsorbedCore(c: Cell, x: Feed)
    requires x.Absorbed?
    ensures CellAfter(c, x).(absorptions := 0) == c.(absorptions := 0)
  {
  }

  lemma CoreLanded(g: Grid, x: Feed, s: Scale, start: nat, price: nat)
    requires ValidScale(s)
    ensures var b, p := F.StartOf(x.time, s.width), GridPrice(PriceOf(x), s.aggregation);
      Core(Landed(g, x, s), start, price)
      == if start == b && price == p then
           CellAfter(Located(CellAt(RowAt(g, b), p), b, p), x).(absorptions := 0, bucket := None, price := p)
         else Core(g, start, price)
  {
    hide CellAfter;
  }

  /** The same event keeps two heatmaps alike. */
  lemma SameLanded(a: Grid, b: Grid, x: Feed, s: Scale)
    requires ValidScale(s) && Alike(a, b)
    ensures Alike(Landed(a, x, s), Landed(b, x, s))
  {
    hide CellAfter, Landed;
    var start, price := F.StartOf(x.time, s.width), GridPrice(PriceOf(x), s.aggregation);
    var c := Located(CellAt(RowAt(a, start), price), start, price);
    var d := Located(CellAt(RowAt(b, start), price), start, price);
    assert Core(a, start, price) == Core(b, start, price);
    CellAfterCore(c, d, x);
    forall b0, p0 ensures Core(Landed(a, x, s), b0, p0) == Core(Landed(b, x, s), b0, p0) {
      CoreLanded(a, x, s, b0, p0);
      CoreLanded(b, x, s, b0, p0);
      assert Core(a, b0, p0) == Core(b, b0, p0);
    }
  }

  /** An absorption on one side keeps them alike. */
  lemma AbsorbedAlike(a: Grid, x: Feed, s: Scale)
    requires ValidScale(s) && x.Absorbed?
    ensures Alike(Landed(a, x, s), a)
  {
    hide CellAfter, Landed;
    var start, price := F.StartOf(x.time, s.width), GridPrice(PriceOf(x), s.aggregation);
    AbsorbedCore(Located(CellAt(RowAt(a, start), price), start, price), x);
    forall b0, p0 ensures Core(Landed(a, x, s), b0, p0) == Core(a, b0, p0) {
      CoreLanded(a, x, s, b0, p0);
    }
  }

  lemma FromAlike(a: Grid, b: Grid, cutoff: nat)
    requires Alike(a, b)
    ensures Alike(From(a, cutoff), From(b, cutoff))
  {
    forall start, price ensures Core(From(a, cutoff), start, price) == Core(From(b, cutoff), start, price) {
      assert Core(a, start, price) == Core(b, start, price);
    }
  }

  lemma AlikeChain(a: Grid, b: Grid, c: Grid)
    requires Alike(a, b) && Alike(b, c)
    ensures Alike(a, c) && Alike(b, a)
  {
    forall start, price
      ensures Core(a, start, price) == Core(c, start, price) && Core(b, start, price) == Core(a, start, price)
    {
      assert Core(a, start, price) == Core(b, start, price) && Core(b, start, price) == Core(c, start, price);
    }
  }

  /** What every measure but the two says of alike cells. */
  predicate Shared(m: Measure) {
    m != Levels && m != Absorptions
  }

  ghost predicate SameCells(r: Row, q: Row, m: Measure) {
    forall p :: Value(CellAt(r, p), m) == Value(CellAt(q, p), m)
  }

  lemma SameCellsWithout(r: Row, q: Row, p: nat, m: Measure)
    requires SameCells(r, q, m)
    ensures SameCells(r - {p}, q - {p}, m) && Value(CellAt(r, p), m) == Value(CellAt(q, p), m)
  {
    hide Value;
    forall k ensures Value(CellAt(r - {p}, k), m) == Value(CellAt(q - {p}, k), m) {
      assert k != p ==> Value(CellAt(r, k), m) == Value(CellAt(q, k), m);
    }
  }

  lemma {:induction false} AlikeRows(r: Row, q: Row, m: Measure)
    requires Shared(m) && SameCells(r, q, m)
    ensures RowTotal(r, m) == RowTotal(q, m)
    decreases |r| + |q|
  {
    hide RowTotal, SameCells, Value;
    if r != map[] || q != map[] {
      var p :| p in r || p in q;
      WithoutKey(r, p, m);
      WithoutKey(q, p, m);
      SameCellsWithout(r, q, p, m);
      AlikeRows(r - {p}, q - {p}, m);
    } else {
      assert r == q;
    }
  }

  lemma WithoutKey(r: Row, p: nat, m: Measure)
    requires Shared(m)
    ensures RowTotal(r, m) == RowTotal(r - {p}, m) + Value(CellAt(r, p), m)
    ensures |r - {p}| == |r| - if p in r then 1 else 0
  {
    if p in r {
      assert r == (r - {p})[p := r[p]];
      RowTotalSet(r - {p}, p, r[p], m);
      assert (r - {p}).Keys == r.Keys - {p};
    } else {
      assert r - {p} == r;
    }
  }

  lemma WithoutRow(g: Grid, b: nat, m: Measure)
    ensures Total(g, m) == Total(g - {b}, m) + RowTotal(RowAt(g, b), m)
    ensures |g - {b}| == |g| - if b in g then 1 else 0
  {
    hide Total, RowTotal, Reading, Value;
    NothingTotal();
    if b in g {
      assert g == (g - {b})[b := g[b]];
      TotalSet(g - {b}, b, g[b], m);
      assert (g - {b}).Keys == g.Keys - {b};
    } else {
      assert g - {b} == g;
    }
  }

  ghost predicate SameValues(a: Grid, b: Grid, m: Measure) {
    forall start, price :: Value(CellAt(RowAt(a, start), price), m) == Value(CellAt(RowAt(b, start), price), m)
  }

  lemma {:induction false} SameTotals(a: Grid, b: Grid, m: Measure)
    requires Shared(m) && SameValues(a, b, m)
    ensures Total(a, m) == Total(b, m)
    decreases |a| + |b|
  {
    hide RowTotal, Total, SameValues;
    if a != map[] || b != map[] {
      var k :| k in a || k in b;
      WithoutRow(a, k, m);
      WithoutRow(b, k, m);
      SameRow(a, b, k, m);
      AlikeRows(RowAt(a, k), RowAt(b, k), m);
      SameElsewhere(a, b, k, m);
      SameTotals(a - {k}, b - {k}, m);
    } else {
      assert a == b;
    }
  }

  lemma SameRow(a: Grid, b: Grid, k: nat, m: Measure)
    requires SameValues(a, b, m)
    ensures SameCells(RowAt(a, k), RowAt(b, k), m)
  {
    hide Value;
  }

  lemma SameElsewhere(a: Grid, b: Grid, k: nat, m: Measure)
    requires SameValues(a, b, m)
    ensures SameValues(a - {k}, b - {k}, m)
  {
    hide Value;
    forall start, price
      ensures Value(CellAt(RowAt(a - {k}, start), price), m) == Value(CellAt(RowAt(b - {k}, start), price), m)
    {
      if start == k {
        assert RowAt(a - {k}, start) == map[] && RowAt(b - {k}, start) == map[];
      } else {
        assert RowAt(a - {k}, start) == RowAt(a, start) && RowAt(b - {k}, start) == RowAt(b, start);
      }
    }
  }

  /** Alike heatmaps have the same totals for everything but cell and absorption counts. */
  lemma AlikeTotals(a: Grid, b: Grid, m: Measure)
    requires Shared(m) && Alike(a, b)
    ensures Total(a, m) == Total(b, m)
  {
    forall start, price ensures Value(CellAt(RowAt(a, start), price), m) == Value(CellAt(RowAt(b, start), price), m) {
      assert Core(a, start, price) == Core(b, start, price);
    }
    SameTotals(a, b, m);
  }
}
