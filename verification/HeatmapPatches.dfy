/** When a patched frame is the frame that the engine has (src/analytics/heatmap.rs,
    frontend/src/state/store.ts). */
module HeatmapPatches {
  import opened Arithmetic
  import opened HeatmapDeltas
  import opened HeatmapFrames
  import opened Heatmaps
  import opened Ordering
  import opened Sums
  import opened Wire
  import F = Flow

  /** In a list that ascends strictly every price has its own cell. */
  lemma {:induction false} OrderedHolds(cells: seq<CellSnapshot>)
    requires StrictlyOrdered(cells)
    ensures forall x :: x in cells <==> x.priceTick in CellsOf(cells) && CellsOf(cells)[x.priceTick] == x
    decreases |cells|
  {
    hide CellsOf;
    if cells == [] {
      NothingStands();
    } else {
      var front, last := cells[..|cells| - 1], cells[|cells| - 1];
      assert cells == front + [last];
      FrontOrdered(cells);
      OrderedHolds(front);
      LastCell(front, last);
      forall x ensures x in cells <==> x.priceTick in CellsOf(cells) && CellsOf(cells)[x.priceTick] == x {
        assert x in cells <==> x in front || x == last;
      }
    }
  }

  lemma NothingStands()
    ensures CellsOf([]) == map[]
  {
  }

  lemma FrontOrdered(cells: seq<CellSnapshot>)
    requires StrictlyOrdered(cells) && cells != []
    ensures StrictlyOrdered(cells[..|cells| - 1])
    ensures forall x | x in cells[..|cells| - 1] :: x.priceTick < cells[|cells| - 1].priceTick
  {
  }

  /** Only one such list has given members. */
  lemma {:induction false} OrderedUnique(a: seq<CellSnapshot>, b: seq<CellSnapshot>)
    requires StrictlyOrdered(a) && StrictlyOrdered(b) && forall x :: x in a <==> x in b
    ensures a == b
    decreases |a|
  {
    EmptyTogether(a, b);
    if a != [] {
      var s, t, x, y := a[..|a| - 1], b[..|b| - 1], a[|a| - 1], b[|b| - 1];
      assert a == s + [x] && b == t + [y];
      FrontOrdered(a);
      FrontOrdered(b);
      hide StrictlyOrdered;
      assert x in b && y in a;
      assert x == y;
      forall z ensures z in s <==> z in t {
        assert z in a <==> z in s || z == x;
        assert z in b <==> z in t || z == x;
      }
      OrderedUnique(s, t);
    }
  }

  lemma EmptyTogether(a: seq<CellSnapshot>, b: seq<CellSnapshot>)
    requires forall x :: x in a <==> x in b
    ensures a == [] <==> b == []
  {
    assert (a != [] ==> a[0] in b) && (b != [] ==> b[0] in a);
  }

  /** What a difference does not carry is unchanged, no counter falls, and the list of cells is one that a
      patch can produce: one cell a price, prices ascending. */
  ghost predicate Restorable(previous: Frame, current: Frame) {
    && previous.(cells := [], summary := current.summary) == current.(cells := [])
    && previous.summary.(counters := current.summary.counters) == current.summary
    && NoCounterFalls(previous.summary.counters, current.summary.counters)
    && StrictlyOrdered(current.cells)
  }

  /** A patched frame is the current frame if and only if that is so. */
  lemma PatchIsExact(previous: Frame, current: Frame)
    ensures Patched(previous, DeltaOf(previous, current)) == current <==> Restorable(previous, current)
  {
    hide DeltaOf, CellsOf, StrictlyOrdered, NoCounterFalls;
    CellsDecide(previous, previous, current);
    var p, c := previous.summary.counters, current.summary.counters;
    PatchedCounters(previous, previous, current);
    NeverFallsBelow(p);
    CountersExact(p, p, c);
    PatchKeepsRest(previous, DeltaOf(previous, current));
    hide Patched, CountersAdded, CounterDelta;
  }

  lemma NeverFallsBelow(p: Counters)
    ensures NoCounterFalls(p, p)
  {
  }

  lemma PatchKeepsRest(f: Frame, d: Delta)
    ensures var r := Patched(f, d);
      r == f.(cells := r.cells, summary := f.summary.(counters := r.summary.counters))
  {
    hide SortedBy, ValuesOf, PatchedEntries;
  }

  lemma CellsDecide(base: Frame, previous: Frame, current: Frame)
    requires CellsOf(base.cells) == CellsOf(previous.cells)
    ensures Patched(base, DeltaOf(previous, current)).cells == current.cells <==> StrictlyOrdered(current.cells)
  {
    hide Patched, DeltaOf, CellsOf;
    PatchRestoresCells(base, previous, current);
    var cells := Patched(base, DeltaOf(previous, current)).cells;
    OrderedHolds(cells);
    if StrictlyOrdered(current.cells) {
      OrderedHolds(current.cells);
      OrderedUnique(cells, current.cells);
    }
  }

  /** The same for a browser that starts from the first of at least two frames and receives every difference:
      it shows the last frame if and only if nothing that differences do not carry differs between the first
      and the last, no counter fell on the way, and the last frame lists one cell a price. */
  lemma FramesRestoredExactly(frames: seq<Frame>)
    requires |frames| > 1
    ensures var base, last := frames[0], frames[|frames| - 1];
      PatchedThrough(base, frames) == last
      <==> base.(cells := [], summary := last.summary) == last.(cells := [])
           && base.summary.(counters := last.summary.counters) == last.summary
           && NoneFalls(frames) && StrictlyOrdered(last.cells)
  {
    hide DeltaOf, CellsOf, StrictlyOrdered, NoneFalls, Patched, NoCounterFalls;
    var before := frames[..|frames| - 1];
    CountersReachLastFrame(frames);
    DeltasReachLastFrame(before);
    RestStays(frames[0], frames);
    CellsDecide(PatchedThrough(frames[0], before), frames[|frames| - 2], frames[|frames| - 1]);
  }

  lemma {:induction false} RestStays(base: Frame, frames: seq<Frame>)
    requires frames != []
    ensures var r := PatchedThrough(base, frames);
      r == base.(cells := r.cells, summary := base.summary.(counters := r.summary.counters))
    decreases |frames|
  {
    hide Patched, DeltaOf;
    if |frames| > 1 {
      var before := frames[..|frames| - 1];
      RestStays(base, before);
      PatchKeepsRest(PatchedThrough(base, before), DeltaOf(frames[|frames| - 2], frames[|frames| - 1]));
    }
  }

  function OneRow(start: nat, price: nat, c: Cell): Grid {
    map[start := map[price := c]]
  }

  lemma OneKey(k: nat)
    ensures Ascending({k}) == [k]
  {
  }

  lemma OneRowShown(start: nat, price: nat, c: Cell, lo: nat, hi: nat)
    requires lo <= price <= hi
    ensures var g := OneRow(start, price, c); GridCells(g, Ascending(g.Keys), lo, hi) == [SnapshotOf(c, price)]
  {
    var row: Row := map[price := c];
    OneKey(start);
    OneKey(price);
    assert OneRow(start, price, c).Keys == {start} && row.Keys == {price};
    assert RowCells(row, [], lo, hi) == [] && GridCells(OneRow(start, price, c), [], lo, hi) == [];
    assert [price][..0] == [] && [start][..0] == [];
    assert RowCells(row, [price], lo, hi) == [SnapshotOf(c, price)];
  }

  /** The cell of a trade that is alone in its bucket. */
  function TradeCell(t: Trade, s: Scale): Cell
    requires ValidScale(s)
  {
    var start, price := F.StartOf(t.tradeTime, s.width), GridPrice(t.price, s.aggregation);
    CellAfter(Located(NewCell(price), start, price), Traded(t.tradeTime, t))
  }

  lemma OneTradeLands(t: Trade, s: Scale)
    requires ValidScale(s)
    ensures Landed(map[], Traded(t.tradeTime, t), s)
         == OneRow(F.StartOf(t.tradeTime, s.width), GridPrice(t.price, s.aggregation), TradeCell(t, s))
  {
  }

  /** Any trade that is pruned between two frames: the engine's frame is empty again, and the patched frame
      has no cells, but it still counts the trade. */
  lemma PrunedTradeStaysCounted(t: Trade, s: Scale, retention: nat, now: nat, lo: nat, hi: nat, f: Frame, g: Frame)
    requires ValidScale(s) && lo <= GridPrice(t.price, s.aggregation) <= hi
    requires F.StartOf(t.tradeTime, s.width) < Saturating(now, retention)
    requires Shows(f, Landed(map[], Traded(t.tradeTime, t), s), retention, t.tradeTime, lo, hi)
    requires Shows(g, From(Landed(map[], Traded(t.tradeTime, t), s), Saturating(now, retention)), retention, now,
                   lo, hi)
    ensures g.cells == [] && g.summary.counters == NoCounts
    ensures var r := Patched(f, DeltaOf(f, g));
      && r.cells == [] && r.summary.counters.trades == 1
      && r.summary.counters.buy == (if t.aggressor == Buy then t.quantity else 0)
      && r.summary.counters.sell == (if t.aggressor == Sell then t.quantity else 0) && r.summary.counters.delta == 0
    ensures !NoneFalls([f, g]) && PatchedThrough(f, [f, g]) != g
  {
    hide Patched, DeltaOf, CellsOf, Ascending, GridCells;
    var start, price, cell := F.StartOf(t.tradeTime, s.width), GridPrice(t.price, s.aggregation), TradeCell(t, s);
    OneTradeLands(t, s);
    OneRowShown(start, price, cell, lo, hi);
    assert From(OneRow(start, price, cell), Saturating(now, retention)) == map[];
    NoRowsShown(lo, hi);
    OneTallied(SnapshotOf(cell, price));
    PatchedCountersAreMaxima(f, g);
    CellsDecide(f, f, g);
    TwoFrames(f, g);
    FallsOnce(f, g);
  }

  lemma NoRowsShown(lo: nat, hi: nat)
    ensures var none: Grid := map[];
      GridCells(none, Ascending(none.Keys), lo, hi) == []
  {
  }

  lemma OneTallied(c: CellSnapshot)
    ensures Tallied([c]) == OneCell(c) && Tallied([]) == NoCounts
  {
    assert [c][..0] == [];
  }

  lemma TwoFrames(f: Frame, g: Frame)
    ensures PatchedThrough(f, [f, g]) == Patched(f, DeltaOf(f, g))
  {
    hide Patched, DeltaOf;
    assert [f, g][..1] == [f];
  }

  lemma FallsOnce(f: Frame, g: Frame)
    requires !NoCounterFalls(f.summary.counters, g.summary.counters)
    ensures !NoneFalls([f, g])
  {
    hide NoCounterFalls;
    assert [f, g][0] == f && [f, g][1] == g;
  }

  predicate InRange(p: nat, lo: nat, hi: nat) {
    lo <= p <= hi
  }

  /** Every visible price of a bucket lies below every visible price of a later one. */
  ghost predicate Stepped(g: Grid, lo: nat, hi: nat) {
    forall b, c, p, q | b in g && c in g && b < c && p in g[b] && q in g[c]
                        && InRange(p, lo, hi) && InRange(q, lo, hi) ::
      p < q
  }

  lemma {:induction false} RowLists(r: Row, prices: seq<nat>, lo: nat, hi: nat)
    requires StrictlyAscending(prices) && forall p | p in prices :: p in r
    ensures StrictlyOrdered(RowCells(r, prices, lo, hi))
    ensures forall x | x in RowCells(r, prices, lo, hi) ::
              x.priceTick in prices && InRange(x.priceTick, lo, hi) && x == SnapshotOf(r[x.priceTick], x.priceTick)
    ensures forall p | p in prices && InRange(p, lo, hi) :: SnapshotOf(r[p], p) in RowCells(r, prices, lo, hi)
    decreases |prices|
  {
    hide SnapshotOf, InRange, StrictlyOrdered;
    if prices == [] {
      NothingOrdered();
    } else {
      var front, p: nat := prices[..|prices| - 1], prices[|prices| - 1];
      assert prices == front + [p];
      RowLists(r, front, lo, hi);
      ShapeOfCell(r[p], p);
      LastIsGreatest(prices);
      VisibleIs(r[p], p, lo, hi);
      OrderedJoin(RowCells(r, front, lo, hi), VisibleCell(r[p], p, lo, hi));
    }
  }

  lemma NothingOrdered()
    ensures StrictlyOrdered([])
  {
  }

  lemma LastIsGreatest(prices: seq<nat>)
    requires StrictlyAscending(prices) && prices != []
    ensures var front := prices[..|prices| - 1];
      StrictlyAscending(front) && forall q | q in front :: q < prices[|prices| - 1]
  {
  }

  lemma VisibleIs(c: Cell, p: nat, lo: nat, hi: nat)
    ensures StrictlyOrdered(VisibleCell(c, p, lo, hi))
    ensures VisibleCell(c, p, lo, hi) == if InRange(p, lo, hi) then [SnapshotOf(c, p)] else []
  {
  }

  lemma ShapeOfCell(c: Cell, p: nat)
    ensures SnapshotOf(c, p).priceTick == p
  {
  }

  /** Where the cells of a grid come from, and that all its visible cells are listed. */
  lemma {:induction false} GridLists(g: Grid, starts: seq<nat>, lo: nat, hi: nat)
    requires forall b | b in starts :: b in g
    ensures forall x | x in GridCells(g, starts, lo, hi) ::
              exists b :: b in starts && x.priceTick in g[b] && InRange(x.priceTick, lo, hi)
                          && x == SnapshotOf(g[b][x.priceTick], x.priceTick)
    ensures forall b, p | b in starts && p in g[b] && InRange(p, lo, hi) ::
              SnapshotOf(g[b][p], p) in GridCells(g, starts, lo, hi)
    decreases |starts|
  {
    hide SnapshotOf, RowCells, Ascending;
    if starts != [] {
      var front, last: nat := starts[..|starts| - 1], starts[|starts| - 1];
      assert starts == front + [last];
      GridLists(g, front, lo, hi);
      RowLists(g[last], Ascending(g[last].Keys), lo, hi);
    }
  }

  function Part(g: Grid, starts: seq<nat>): Grid
    requires forall b | b in starts :: b in g
  {
    map b | b in starts :: g[b]
  }

  /** Its cells ascend strictly if and only if its buckets do. */
  lemma {:induction false} GridOrderedExactly(g: Grid, starts: seq<nat>, lo: nat, hi: nat)
    requires StrictlyAscending(starts) && forall b | b in starts :: b in g
    ensures StrictlyOrdered(GridCells(g, starts, lo, hi)) <==> Stepped(Part(g, starts), lo, hi)
    decreases |starts|
  {
    hide SnapshotOf, RowCells, Ascending, Stepped, StrictlyOrdered, InRange;
    if starts == [] {
      NothingStepped(lo, hi);
      assert Part(g, starts) == map[];
    } else {
      var front, last: nat := starts[..|starts| - 1], starts[|starts| - 1];
      assert starts == front + [last];
      var row := RowCells(g[last], Ascending(g[last].Keys), lo, hi);
      GridOrderedExactly(g, front, lo, hi);
      GridLists(g, front, lo, hi);
      RowLists(g[last], Ascending(g[last].Keys), lo, hi);
      OrderedJoin(GridCells(g, front, lo, hi), row);
      SteppedJoin(g, front, last, lo, hi);
      Crosses(g, front, last, lo, hi, GridCells(g, front, lo, hi), row);
    }
  }

  lemma NothingStepped(lo: nat, hi: nat)
    ensures StrictlyOrdered([]) && Stepped(map[], lo, hi)
  {
  }

  /** All of `a` lies below all of `b`. */
  ghost predicate AllBelow(a: seq<CellSnapshot>, b: seq<CellSnapshot>) {
    forall x, y | x in a && y in b :: x.priceTick < y.priceTick
  }

  lemma OrderedJoin(a: seq<CellSnapshot>, b: seq<CellSnapshot>)
    requires StrictlyOrdered(b)
    ensures StrictlyOrdered(a + b) <==> StrictlyOrdered(a) && AllBelow(a, b)
  {
    var c := a + b;
    if StrictlyOrdered(c) {
      assert forall i | 0 <= i < |a| :: c[i] == a[i];
      forall x, y | x in a && y in b ensures x.priceTick < y.priceTick {
        var i :| 0 <= i < |a| && a[i] == x;
        var j :| 0 <= j < |b| && b[j] == y;
        assert c[i] == x && c[|a| + j] == y;
      }
    } else if StrictlyOrdered(a) && AllBelow(a, b) {
      forall i, j | 0 <= i < j < |c| ensures c[i].priceTick < c[j].priceTick {
        if i < |a| <= j { assert c[i] in a && c[j] in b; }
      }
    }
  }

  /** Every visible price of the earlier buckets lies below every one of the last. */
  ghost predicate RowBelow(g: Grid, front: seq<nat>, last: nat, lo: nat, hi: nat)
    requires last in g && forall b | b in front :: b in g
  {
    forall b, p, q | b in front && p in g[b] && q in g[last] && InRange(p, lo, hi) && InRange(q, lo, hi) :: p < q
  }

  lemma SteppedJoin(g: Grid, front: seq<nat>, last: nat, lo: nat, hi: nat)
    requires StrictlyAscending(front + [last]) && forall b | b in front + [last] :: b in g
    ensures Stepped(Part(g, front + [last]), lo, hi)
       <==> Stepped(Part(g, front), lo, hi) && RowBelow(g, front, last, lo, hi)
  {
    hide InRange;
    var all, less, more := front + [last], Part(g, front), Part(g, front + [last]);
    assert all[..|all| - 1] == front;
    LastIsGreatest(all);
    hide StrictlyAscending;
    assert forall b :: b in all <==> b in front || b == last;
    assert last in more && more[last] == g[last];
    assert forall b | b in front :: b in less && b in more && less[b] == g[b] == more[b];
    if Stepped(more, lo, hi) {
      assert Stepped(less, lo, hi);
      assert RowBelow(g, front, last, lo, hi);
    } else if RowBelow(g, front, last, lo, hi) {
      var b, c, p, q :| b in more && c in more && b < c && p in more[b] && q in more[c]
        && InRange(p, lo, hi) && InRange(q, lo, hi) && p >= q;
      assert b in front;
      if c != last { assert c in less && b in less; }
    }
  }

  lemma Crosses(g: Grid, front: seq<nat>, last: nat, lo: nat, hi: nat, a: seq<CellSnapshot>, b: seq<CellSnapshot>)
    requires last in g && forall k | k in front :: k in g
    requires a == GridCells(g, front, lo, hi) && b == RowCells(g[last], Ascending(g[last].Keys), lo, hi)
    ensures AllBelow(a, b) <==> RowBelow(g, front, last, lo, hi)
  {
    hide GridCells, RowCells, Ascending, SnapshotOf, InRange;
    GridLists(g, front, lo, hi);
    RowLists(g[last], Ascending(g[last].Keys), lo, hi);
    if AllBelow(a, b) {
      forall k, p, q | k in front && p in g[k] && q in g[last] && InRange(p, lo, hi) && InRange(q, lo, hi)
        ensures p < q
      {
        ShapeOfCell(g[k][p], p);
        ShapeOfCell(g[last][q], q);
        assert SnapshotOf(g[k][p], p) in a && SnapshotOf(g[last][q], q) in b;
      }
    }
  }

  /** For frames of heatmaps: the patched cells are those of the engine's frame if and only if the visible
      prices rise from each bucket to the next. A price in two buckets is listed twice by the engine and once
      by the browser. */
  lemma PatchedCellsExactly(previous: Frame, current: Frame, g: Grid, retention: nat, now: nat, lo: nat, hi: nat)
    requires Shows(current, g, retention, now, lo, hi)
    ensures Patched(previous, DeltaOf(previous, current)).cells == current.cells <==> Stepped(g, lo, hi)
  {
    hide Patched, DeltaOf, CellsOf, GridCells, Ascending, Stepped, StrictlyOrdered, Tallied, Bounds;
    CellsDecide(previous, previous, current);
    GridOrderedExactly(g, Ascending(g.Keys), lo, hi);
    assert Part(g, Ascending(g.Keys)) == g;
  }
}
