/** Frames of the heatmap for a renderer (src/analytics/heatmap.rs, `HeatmapFrame::from_heatmap`). */
module HeatmapFrames {
  import opened Arithmetic
  import opened Heatmaps
  import opened HeatmapDeltas
  import opened Ordering

  function SnapshotOf(c: Cell, price: nat): CellSnapshot {
    CellSnapshot(price, c.restingBid, c.restingAsk, c.added, c.removed, c.buy, c.sell, c.delta, c.trades,
                 c.largeVolume, c.replenishments, c.absorptions, c.sweeps, c.pressure)
  }

  /** The visible cells of a row in the order of the given prices. */
  function RowCells(r: Row, prices: seq<nat>, lo: nat, hi: nat): seq<CellSnapshot>
    requires forall p | p in prices :: p in r
  {
    if prices == [] then []
    else
      var p: nat := prices[|prices| - 1];
      RowCells(r, prices[..|prices| - 1], lo, hi) + VisibleCell(r[p], p, lo, hi)
  }

  function VisibleCell(c: Cell, p: nat, lo: nat, hi: nat): seq<CellSnapshot> {
    if lo <= p <= hi then [SnapshotOf(c, p)] else []
  }

  /** Oldest bucket first, cheapest price first. */
  function GridCells(g: Grid, starts: seq<nat>, lo: nat, hi: nat): seq<CellSnapshot>
    requires forall b | b in starts :: b in g
  {
    if starts == [] then []
    else
      var row := g[starts[|starts| - 1]];
      GridCells(g, starts[..|starts| - 1], lo, hi) + RowCells(row, Ascending(row.Keys), lo, hi)
  }

  function OneCell(s: CellSnapshot): Counters {
    Counters(s.buy, s.sell, s.delta, s.trades, s.added, s.removed, s.largeVolume, s.replenishments, s.absorptions,
             s.sweeps)
  }

  const NoCounts := Counters(0, 0, 0, 0, 0, 0, 0, 0, 0, 0)

  function Tallied(cells: seq<CellSnapshot>): Counters {
    if cells == [] then NoCounts else CountersAdded(Tallied(cells[..|cells| - 1]), OneCell(cells[|cells| - 1]))
  }

  /** The least and greatest price among the cells, or the requested range if there are none. */
  ghost predicate Bounds(cells: seq<CellSnapshot>, lo: nat, hi: nat, r: (nat, nat)) {
    if cells == [] then r == (lo, hi)
    else
      && (exists i | 0 <= i < |cells| :: cells[i].priceTick == r.0)
      && (exists i | 0 <= i < |cells| :: cells[i].priceTick == r.1)
      && (forall i | 0 <= i < |cells| :: r.0 <= cells[i].priceTick <= r.1)
  }

  /** First and last bucket, or the retention window if there is none. */
  function TimeRange(g: Grid, timestamp: nat, retention: nat): (r: (nat, nat))
    ensures g != map[] ==> r.0 in g && r.1 in g && forall b | b in g :: r.0 <= b <= r.1
    ensures g == map[] ==> r.1 == timestamp && (r.0 + retention == timestamp || (r.0 == 0 && timestamp < retention))
  {
    if g == map[] then (Saturating(timestamp, retention), timestamp)
    else (LeastKey(g.Keys).value, GreatestKey(g.Keys).value)
  }

  /** Cells collected so far with their running counters and price extremes. */
  datatype Gathered = Gathered(cells: seq<CellSnapshot>, counters: Counters, least: nat, greatest: nat)

  ghost predicate GatheredFrom(a: Gathered, cells: seq<CellSnapshot>, lo: nat, hi: nat) {
    && a.cells == cells
    && a.counters == Tallied(cells)
    && (forall i | 0 <= i < |cells| :: lo <= cells[i].priceTick <= hi)
    && (cells == [] ==> a.least == hi && a.greatest == lo)
    && (cells != [] ==> Bounds(cells, lo, hi, (a.least, a.greatest)))
  }

  /** The frame of a heatmap at a time, for a price range. */
  ghost predicate Shows(f: Frame, g: Grid, retention: nat, timestamp: nat, lo: nat, hi: nat) {
    && f.timestamp == timestamp
    && f.cells == GridCells(g, Ascending(g.Keys), lo, hi)
    && f.summary == Summary(|f.cells|, |g|, Tallied(f.cells))
    && Bounds(f.cells, lo, hi, f.visible)
    && f.timeRange == TimeRange(g, timestamp, retention)
  }

  method FromHeatmap(h: Heatmap, timestamp: nat, lo: nat, hi: nat) returns (f: Frame)
    ensures Shows(f, h.buckets, h.retention, timestamp, lo, hi)
  {
    hide GatheredFrom, Ascending, RowCells;
    var a := Gathered([], NoCounts, hi, lo);
    NothingGathered(lo, hi);
    var starts := Ascending(h.buckets.Keys);
    for i := 0 to |starts|
      invariant GatheredFrom(a, GridCells(h.buckets, starts[..i], lo, hi), lo, hi)
    {
      assert starts[..i + 1][..i] == starts[..i];
      assert starts[i] in starts;
      GatheredCells(a, GridCells(h.buckets, starts[..i], lo, hi), lo, hi);
      a := GatherRow(a, h.buckets[starts[i]], lo, hi);
    }
    assert starts[..|starts|] == starts;
    GatheredCells(a, GridCells(h.buckets, starts, lo, hi), lo, hi);
    var visible := if a.cells == [] then (lo, hi) else (a.least, a.greatest);
    f := Frame(timestamp, visible, TimeRange(h.buckets, timestamp, h.retention), a.cells,
               Summary(|a.cells|, |h.buckets|, a.counters));
  }

  lemma NothingGathered(lo: nat, hi: nat)
    ensures GatheredFrom(Gathered([], NoCounts, hi, lo), [], lo, hi)
  {
  }

  lemma GatheredCells(a: Gathered, cells: seq<CellSnapshot>, lo: nat, hi: nat)
    requires GatheredFrom(a, cells, lo, hi)
    ensures a.cells == cells && a.counters == Tallied(cells)
    ensures Bounds(cells, lo, hi, if cells == [] then (lo, hi) else (a.least, a.greatest))
  {
  }

  method GatherRow(a0: Gathered, row: Row, lo: nat, hi: nat) returns (a: Gathered)
    requires GatheredFrom(a0, a0.cells, lo, hi)
    ensures GatheredFrom(a, a0.cells + RowCells(row, Ascending(row.Keys), lo, hi), lo, hi)
  {
    hide GatheredFrom, Ascending, RowCells, Tallied, Bounds;
    a := a0;
    var prices := Ascending(row.Keys);
    RowCellsStep(row, prices, 0, lo, hi);
    assert a0.cells + [] == a0.cells;
    for i := 0 to |prices|
      invariant GatheredFrom(a, a0.cells + RowCells(row, prices[..i], lo, hi), lo, hi)
    {
      RowCellsStep(row, prices, i, lo, hi);
      var price := prices[i];
      assert price in prices;
      ghost var sofar := a0.cells + RowCells(row, prices[..i], lo, hi);
      if lo <= price <= hi {
        var cell := SnapshotOf(row[price], price);
        GatherOne(a, sofar, cell, lo, hi);
        a := Gathered(a.cells + [cell], CountersAdded(a.counters, OneCell(cell)),
                      if price < a.least then price else a.least, if price > a.greatest then price else a.greatest);
        assert sofar + [cell] == a0.cells + RowCells(row, prices[..i + 1], lo, hi);
      } else {
        assert sofar == a0.cells + RowCells(row, prices[..i + 1], lo, hi);
      }
    }
    assert prices[..|prices|] == prices;
  }

  lemma RowCellsStep(row: Row, prices: seq<nat>, i: nat, lo: nat, hi: nat)
    requires i <= |prices| && forall p | p in prices :: p in row
    ensures RowCells(row, prices[..0], lo, hi) == []
    ensures i < |prices| ==>
      RowCells(row, prices[..i + 1], lo, hi)
           == RowCells(row, prices[..i], lo, hi) + VisibleCell(row[prices[i]], prices[i], lo, hi)
  {
    if i < |prices| { assert prices[..i + 1][..i] == prices[..i]; }
  }

  lemma GatherOne(a: Gathered, cells: seq<CellSnapshot>, cell: CellSnapshot, lo: nat, hi: nat)
    requires GatheredFrom(a, cells, lo, hi) && lo <= cell.priceTick <= hi
    ensures GatheredFrom(Gathered(a.cells + [cell], CountersAdded(a.counters, OneCell(cell)),
                                  if cell.priceTick < a.least then cell.priceTick else a.least,
                                  if cell.priceTick > a.greatest then cell.priceTick else a.greatest),
                         cells + [cell], lo, hi)
  {
    hide CountersAdded, OneCell;
    var more, p := cells + [cell], cell.priceTick;
    assert more[..|cells|] == cells;
    assert more[|cells|].priceTick == p;
    if cells != [] {
      var i :| 0 <= i < |cells| && cells[i].priceTick == a.least;
      var j :| 0 <= j < |cells| && cells[j].priceTick == a.greatest;
      assert more[i].priceTick == a.least && more[j].priceTick == a.greatest;
    }
  }

  function SnapshotValue(s: CellSnapshot, m: Measure): int {
    match m
    case Levels => 1
    case Buys => s.buy
    case Sells => s.sell
    case Delta => s.delta
    case Trades => s.trades
    case Added => s.added
    case Removed => s.removed
    case RestingBid => s.restingBid
    case RestingAsk => s.restingAsk
    case LargeVolume => s.largeVolume
    case Replenishments => s.replenishments
    case Absorptions => s.absorptions
    case Sweeps => s.sweeps
    case Pressure => s.pressure
  }

  function SumCells(cells: seq<CellSnapshot>, m: Measure): int {
    if cells == [] then 0 else SumCells(cells[..|cells| - 1], m) + SnapshotValue(cells[|cells| - 1], m)
  }

  lemma {:induction false} SumConcat(a: seq<CellSnapshot>, b: seq<CellSnapshot>, m: Measure)
    ensures SumCells(a + b, m) == SumCells(a, m) + SumCells(b, m)
    decreases |b|
  {
    if b == [] {
      assert a + b == a;
    } else {
      assert (a + b)[..|a + b| - 1] == a + b[..|b| - 1];
      SumConcat(a, b[..|b| - 1], m);
    }
  }

  /** The measures that a frame summary shows. */
  predicate Summarized(m: Measure) {
    m != RestingBid && m != RestingAsk && m != Pressure
  }

  function SummaryReading(s: Summary, m: Measure): int
    requires Summarized(m)
  {
    match m
    case Levels => s.priceLevels
    case Buys => s.counters.buy
    case Sells => s.counters.sell
    case Delta => s.counters.delta
    case Trades => s.counters.trades
    case Added => s.counters.added
    case Removed => s.counters.removed
    case LargeVolume => s.counters.largeVolume
    case Replenishments => s.counters.replenishments
    case Absorptions => s.counters.absorptions
    case Sweeps => s.counters.sweeps
  }

  lemma {:induction false} TalliedReads(cells: seq<CellSnapshot>, buckets: nat, m: Measure)
    requires Summarized(m)
    ensures SummaryReading(Summary(|cells|, buckets, Tallied(cells)), m) == SumCells(cells, m)
    decreases |cells|
  {
    if cells != [] {
      TalliedReads(cells[..|cells| - 1], buckets, m);
    }
  }

  function VisiblePart(r: Row, lo: nat, hi: nat): Row {
    map p | p in r && lo <= p <= hi :: r[p]
  }

  function Clipped(g: Grid, lo: nat, hi: nat): Grid {
    map b | b in g :: VisiblePart(g[b], lo, hi)
  }

  function Picked<V>(m: map<nat, V>, keys: seq<nat>): map<nat, V> {
    map k | k in m && k in keys :: m[k]
  }

  lemma NothingPicked<V>(m: map<nat, V>)
    ensures Picked(m, []) == map[]
  {
  }

  lemma {:induction false} RowSums(r: Row, prices: seq<nat>, lo: nat, hi: nat, m: Measure)
    requires StrictlyAscending(prices) && forall p | p in prices :: p in r
    ensures SumCells(RowCells(r, prices, lo, hi), m) == RowTotal(Picked(VisiblePart(r, lo, hi), prices), m)
    decreases |prices|
  {
    hide RowTotal, Total, Picked, VisiblePart, VisibleCell, SumCells, Reading;
    NoCells(m);
    if prices == [] {
      NothingPicked(VisiblePart(r, lo, hi));
      NothingTotal();
    } else {
      var front, p: nat := prices[..|prices| - 1], prices[|prices| - 1];
      assert prices == front + [p] && p !in front;
      RowSums(r, front, lo, hi, m);
      SumConcat(RowCells(r, front, lo, hi), VisibleCell(r[p], p, lo, hi), m);
      VisibleValue(r[p], p, lo, hi, m);
      var visible := VisiblePart(r, lo, hi);
      PickedOneMore(visible, front, p);
      VisibleOne(r, lo, hi, p);
      if lo <= p <= hi {
        OneMoreCell(Picked(visible, front), p, r[p]);
      }
    }
  }

  lemma NoCells(m: Measure)
    ensures SumCells([], m) == 0
  {
  }

  lemma VisibleOne(r: Row, lo: nat, hi: nat, p: nat)
    requires p in r
    ensures p in VisiblePart(r, lo, hi) <==> lo <= p <= hi
    ensures lo <= p <= hi ==> VisiblePart(r, lo, hi)[p] == r[p]
  {
  }

  lemma VisibleValue(c: Cell, p: nat, lo: nat, hi: nat, m: Measure)
    ensures SumCells(VisibleCell(c, p, lo, hi), m) == if lo <= p <= hi then Value(c, m) else 0
  {
  }

  lemma {:induction false} GridSums(g: Grid, starts: seq<nat>, lo: nat, hi: nat, m: Measure)
    requires StrictlyAscending(starts) && forall b | b in starts :: b in g
    ensures SumCells(GridCells(g, starts, lo, hi), m) == Total(Picked(Clipped(g, lo, hi), starts), m)
    decreases |starts|
  {
    hide Total, RowTotal, RowCells, VisiblePart, Picked;
    var clipped := Clipped(g, lo, hi);
    if starts == [] {
      NothingPicked(clipped);
      NothingTotal();
    } else {
      var front, b: nat := starts[..|starts| - 1], starts[|starts| - 1];
      assert starts == front + [b] && b !in front;
      GridSums(g, front, lo, hi, m);
      var prices := Ascending(g[b].Keys);
      SumConcat(GridCells(g, front, lo, hi), RowCells(g[b], prices, lo, hi), m);
      RowSums(g[b], prices, lo, hi, m);
      AllPicked(g[b], lo, hi);
      PickedOneMore(clipped, front, b);
      OneMoreRow(Picked(clipped, front), b, clipped[b]);
    }
  }

  lemma AllPicked(r: Row, lo: nat, hi: nat)
    ensures Picked(VisiblePart(r, lo, hi), Ascending(r.Keys)) == VisiblePart(r, lo, hi)
  {
  }

  lemma PickedOneMore<V>(m: map<nat, V>, front: seq<nat>, k: nat)
    ensures Picked(m, front + [k]) == if k in m then Picked(m, front)[k := m[k]] else Picked(m, front)
    ensures k !in front ==> k !in Picked(m, front)
  {
  }

  /** A frame summary adds up exactly the cells in its price range. */
  lemma FrameSumsVisible(g: Grid, lo: nat, hi: nat, m: Measure)
    requires Summarized(m)
    ensures var cells := GridCells(g, Ascending(g.Keys), lo, hi);
      SummaryReading(Summary(|cells|, |g|, Tallied(cells)), m) == Total(Clipped(g, lo, hi), m)
  {
    hide Total, GridCells, SumCells;
    var starts := Ascending(g.Keys);
    TalliedReads(GridCells(g, starts, lo, hi), |g|, m);
    GridSums(g, starts, lo, hi, m);
    assert Picked(Clipped(g, lo, hi), starts) == Clipped(g, lo, hi);
  }

  /** The summary of a frame over the full price range is the digest of the heatmap. */
  lemma FullFrameMatchesDigest(g: Grid, lo: nat, hi: nat, d: Digest, m: Measure)
    requires Summarized(m)
    requires forall b, p | b in g && p in g[b] :: lo <= p <= hi
    requires d.buckets == |g| && forall k :: Reading(d, k) == Total(g, k)
    ensures var cells := GridCells(g, Ascending(g.Keys), lo, hi);
      var summary := Summary(|cells|, |g|, Tallied(cells));
      summary.buckets == d.buckets && SummaryReading(summary, m) == Reading(d, m)
  {
    hide Total, GridCells;
    FrameSumsVisible(g, lo, hi, m);
    assert forall b | b in g :: VisiblePart(g[b], lo, hi) == g[b];
    assert Clipped(g, lo, hi) == g;
  }
}
