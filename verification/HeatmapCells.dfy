/** What each cell of the heatmap says, in terms of the events that landed in it. */
module HeatmapCells {
  import opened Arithmetic
  import opened HeatmapBatches
  import opened HeatmapDeltas
  import opened HeatmapFrames
  import opened HeatmapPatches
  import opened Heatmaps
  import opened Options
  import opened Ordering
  import opened Sums
  import opened Wire
  import F = Flow

  /** Time and price of an event lie in the cell of the bucket from `start` and the grid price `price`. */
  predicate Inside(time: nat, tick: nat, s: Scale, start: nat, price: nat)
    requires ValidScale(s)
  {
    && start % s.width == 0 && start <= time < start + s.width
    && price * s.aggregation <= tick < price * s.aggregation + s.aggregation
  }

  lemma InsideIsLanding(time: nat, tick: nat, s: Scale, start: nat, price: nat)
    requires ValidScale(s)
    ensures F.StartOf(time, s.width) == start && GridPrice(tick, s.aggregation) == price
       <==> Inside(time, tick, s, start, price)
  {
    BucketExactly(time, s.width, start);
    PriceExactly(tick, s.aggregation, price);
  }

  lemma BucketExactly(time: nat, width: nat, start: nat)
    requires width > 0
    ensures F.StartOf(time, width) == start <==> start % width == 0 && start <= time < start + width
  {
    var q := time / width;
    assert time == width * q + time % width;
    QuotientOf(width, q, 0);
    if start % width == 0 && start <= time < start + width {
      QuotientUnique(time, width, q, time % width, start / width, time - start);
    }
  }

  lemma PriceExactly(tick: nat, aggregation: nat, price: nat)
    requires aggregation > 0
    ensures GridPrice(tick, aggregation) == price
       <==> price * aggregation <= tick < price * aggregation + aggregation
  {
    if aggregation != 1 {
      var q, r := tick / aggregation, tick % aggregation;
      assert tick == aggregation * q + r;
      if price * aggregation <= tick < price * aggregation + aggregation {
        QuotientUnique(tick, aggregation, q, r, price, tick - price * aggregation);
      }
    }
  }

  /** Time and price of an event. */
  function PlaceOf(x: Feed): (nat, nat) {
    match x
    case Traded(time, t) => (time, t.price)
    case LargeTraded(time, t) => (time, t.price)
    case Shown(time, c) => (time, c.price)
    case Swept(time, tick) => (time, tick)
    case Absorbed(time, tick) => (time, tick)
    case Refilled(time, tick) => (time, tick)
  }

  /** The events that landed in a cell, in order, since a prune last took its bucket away. */
  function Landing(signals: seq<Signal>, cfg: Settings, n: nat, start: nat, price: nat): seq<Feed>
    requires ValidScale(cfg.scale) && n <= |signals|
  {
    if n == 0 then []
    else
      var before := Landing(signals, cfg, n - 1, start, price);
      match signals[n - 1]
      case Fed(x) => if Inside(PlaceOf(x).0, PlaceOf(x).1, cfg.scale, start, price) then before + [x] else before
      case PruneDue(now) => if start + cfg.retention < now then [] else before
  }

  /** Quantities that one side of a level showed, in order. */
  function Quantities(events: seq<Feed>, side: BookSide): seq<nat> {
    if events == [] then []
    else
      var x := events[|events| - 1];
      Quantities(events[..|events| - 1], side)
      + if x.Shown? && x.change.side == side then [x.change.newQuantity] else []
  }

  function LastOf(quantities: seq<nat>): nat {
    if quantities == [] then 0 else quantities[|quantities| - 1]
  }

  /** How much a sequence of quantities rises, from zero on, all rises together. */
  function Rises(quantities: seq<nat>): nat {
    if quantities == [] then 0
    else
      var front, q := quantities[..|quantities| - 1], quantities[|quantities| - 1];
      Rises(front) + if q > LastOf(front) then q - LastOf(front) else 0
  }

  function Falls(quantities: seq<nat>): nat {
    if quantities == [] then 0
    else
      var front, q := quantities[..|quantities| - 1], quantities[|quantities| - 1];
      Falls(front) + if q < LastOf(front) then LastOf(front) - q else 0
  }

  /** What trades and marks add up to. */
  datatype Totals = Totals(bought: nat, sold: nat, trades: nat, large: nat, sweeps: nat, absorptions: nat, refills: nat)

  function TotalsOf(events: seq<Feed>): Totals {
    if events == [] then Totals(0, 0, 0, 0, 0, 0, 0)
    else
      var s := TotalsOf(events[..|events| - 1]);
      match events[|events| - 1]
      case Traded(_, t) =>
        if t.aggressor == Buy then s.(bought := s.bought + t.quantity, trades := s.trades + 1)
        else s.(sold := s.sold + t.quantity, trades := s.trades + 1)
      case LargeTraded(_, t) => s.(large := s.large + t.quantity)
      case Swept(_, _) => s.(sweeps := s.sweeps + 1)
      case Absorbed(_, _) => s.(absorptions := s.absorptions + 1)
      case Refilled(_, _) => s.(refills := s.refills + 1)
      case Shown(_, _) => s
  }

  /** Each side rests as it was last shown; added and removed are the rises and falls of both sides; volumes,
      delta, pressure and counts are those of the events. */
  ghost predicate Tells(c: Cell, events: seq<Feed>, start: nat, price: nat) {
    var bids, asks, totals := Quantities(events, Bid), Quantities(events, Ask), TotalsOf(events);
    && c.price == price && c.bucket == Some(start)
    && c.restingBid == LastOf(bids) && c.restingAsk == LastOf(asks)
    && c.added == Rises(bids) + Rises(asks) && c.removed == Falls(bids) + Falls(asks)
    && c.buy == totals.bought && c.sell == totals.sold && c.trades == totals.trades
    && c.delta == c.pressure == totals.bought - totals.sold
    && c.largeVolume == totals.large && c.sweeps == totals.sweeps && c.absorptions == totals.absorptions
    && c.replenishments == totals.refills
  }

  lemma QuantitiesGrow(events: seq<Feed>, x: Feed, side: BookSide)
    ensures Quantities(events + [x], side)
         == Quantities(events, side) + if x.Shown? && x.change.side == side then [x.change.newQuantity] else []
  {
    assert (events + [x])[..|events|] == events;
  }

  lemma SequenceGrows(quantities: seq<nat>, q: nat)
    ensures var more := quantities + [q];
      && LastOf(more) == q
      && Rises(more) == Rises(quantities) + (if q > LastOf(quantities) then q - LastOf(quantities) else 0)
      && Falls(more) == Falls(quantities) + (if q < LastOf(quantities) then LastOf(quantities) - q else 0)
  {
    assert (quantities + [q])[..|quantities|] == quantities;
  }

  lemma EventTold(c: Cell, events: seq<Feed>, x: Feed, start: nat, price: nat)
    requires Tells(c, events, start, price)
    ensures Tells(CellAfter(Located(c, start, price), x), events + [x], start, price)
  {
    hide LastOf, Rises, Falls, Quantities;
    assert (events + [x])[..|events|] == events;
    QuantitiesGrow(events, x, Bid);
    QuantitiesGrow(events, x, Ask);
    assert Quantities(events, Bid) + [] == Quantities(events, Bid);
    assert Quantities(events, Ask) + [] == Quantities(events, Ask);
    if x.Shown? { SequenceGrows(Quantities(events, x.change.side), x.change.newQuantity); }
  }

  lemma NothingTold(start: nat, price: nat)
    ensures Tells(Located(NewCell(price), start, price), [], start, price)
  {
  }

  lemma PlaceIsPrice(x: Feed)
    ensures PlaceOf(x) == (x.time, PriceOf(x))
  {
  }

  /** The grid holds exactly the cells in which something landed, and each tells what did. */
  ghost predicate CellTells(g: Grid, events: seq<Feed>, start: nat, price: nat) {
    && (Lookup(g, start, price).Some? <==> events != [])
    && (events != [] ==> Tells(Lookup(g, start, price).value, events, start, price))
  }

  lemma FeedTold(g: Grid, events: seq<Feed>, x: Feed, s: Scale, start: nat, price: nat)
    requires ValidScale(s) && CellTells(g, events, start, price)
    ensures CellTells(Landed(g, x, s),
                      if Inside(PlaceOf(x).0, PlaceOf(x).1, s, start, price) then events + [x] else events, start,
                      price)
  {
    hide Tells, Landed, CellAfter, Inside, NewCell;
    PlaceIsPrice(x);
    InsideIsLanding(x.time, PriceOf(x), s, start, price);
    LookupLanded(g, x, s, start, price);
    if Inside(x.time, PriceOf(x), s, start, price) {
      if events == [] {
        NothingTold(start, price);
        EventTold(Located(NewCell(price), start, price), [], x, start, price);
        LocatedTwice(NewCell(price), start, price);
      } else {
        EventTold(Lookup(g, start, price).value, events, x, start, price);
      }
    }
  }

  lemma LocatedTwice(c: Cell, start: nat, price: nat)
    ensures Located(Located(c, start, price), start, price) == Located(c, start, price)
  {
  }

  lemma PruneTold(g: Grid, events: seq<Feed>, now: nat, retention: nat, start: nat, price: nat)
    requires CellTells(g, events, start, price)
    ensures CellTells(From(g, Saturating(now, retention)), if start + retention < now then [] else events, start, price)
  {
    hide Tells;
  }

  /** Over every run of events and prunes, whatever the order of their times, every cell tells exactly the events
      that landed in it since its bucket was last pruned, and there are no other cells. */
  lemma {:induction false} CellsTellEvents(signals: seq<Signal>, cfg: Settings, n: nat, start: nat, price: nat)
    requires ValidScale(cfg.scale) && n <= |signals|
    ensures CellTells(Streamed(signals, cfg, n), Landing(signals, cfg, n, start, price), start, price)
  {
    hide CellTells, Landed, From, Inside;
    if n == 0 {
      NoCellTold(start, price);
    } else {
      CellsTellEvents(signals, cfg, n - 1, start, price);
      var g, events := Streamed(signals, cfg, n - 1), Landing(signals, cfg, n - 1, start, price);
      match signals[n - 1] {
        case Fed(x) => FeedTold(g, events, x, cfg.scale, start, price);
        case PruneDue(now) => PruneTold(g, events, now, cfg.retention, start, price);
      }
    }
  }

  lemma NoCellTold(start: nat, price: nat)
    ensures CellTells(map[], [], start, price)
  {
  }

  /** A cell of a frame tells what landed. */
  ghost predicate SnapshotTells(x: CellSnapshot, events: seq<Feed>) {
    var bids, asks, totals := Quantities(events, Bid), Quantities(events, Ask), TotalsOf(events);
    && events != []
    && x.restingBid == LastOf(bids) && x.restingAsk == LastOf(asks)
    && x.added == Rises(bids) + Rises(asks) && x.removed == Falls(bids) + Falls(asks)
    && x.buy == totals.bought && x.sell == totals.sold && x.trades == totals.trades
    && x.delta == x.pressure == totals.bought - totals.sold
    && x.largeVolume == totals.large && x.sweeps == totals.sweeps && x.absorptions == totals.absorptions
    && x.replenishments == totals.refills
  }

  lemma SnapshotIsTold(c: Cell, events: seq<Feed>, start: nat, price: nat)
    requires Tells(c, events, start, price) && events != []
    ensures SnapshotTells(SnapshotOf(c, price), events) && SnapshotOf(c, price).priceTick == price
  {
    hide Quantities, TotalsOf, Rises, Falls, LastOf;
  }

  /** Every cell of a frame tells what landed at its price in some bucket. */
  lemma FrameTellsEvents(signals: seq<Signal>, cfg: Settings, n: nat, f: Frame, timestamp: nat, lo: nat, hi: nat,
                         x: CellSnapshot)
    requires ValidScale(cfg.scale) && n <= |signals| && x in f.cells
    requires Shows(f, Streamed(signals, cfg, n), cfg.retention, timestamp, lo, hi)
    ensures InRange(x.priceTick, lo, hi)
    ensures exists start :: SnapshotTells(x, Landing(signals, cfg, n, start, x.priceTick))
  {
    hide GridCells, Ascending, Landing, SnapshotTells, Tells, Tallied, Bounds, InRange, Streamed, SnapshotOf;
    var g := Streamed(signals, cfg, n);
    GridLists(g, Ascending(g.Keys), lo, hi);
    var start :| start in g && x.priceTick in g[start] && InRange(x.priceTick, lo, hi)
      && x == SnapshotOf(g[start][x.priceTick], x.priceTick);
    CellsTellEvents(signals, cfg, n, start, x.priceTick);
    SnapshotIsTold(g[start][x.priceTick], Landing(signals, cfg, n, start, x.priceTick), start, x.priceTick);
  }

  /** Every visible cell in which something landed is in the frame. */
  lemma FrameShowsEvents(signals: seq<Signal>, cfg: Settings, n: nat, f: Frame, timestamp: nat, lo: nat, hi: nat,
                         start: nat, price: nat)
    requires ValidScale(cfg.scale) && n <= |signals| && InRange(price, lo, hi)
    requires Shows(f, Streamed(signals, cfg, n), cfg.retention, timestamp, lo, hi)
    requires Landing(signals, cfg, n, start, price) != []
    ensures exists x :: x in f.cells && x.priceTick == price && SnapshotTells(x, Landing(signals, cfg, n, start, price))
  {
    hide GridCells, Ascending, Landing, SnapshotTells, Tells, Tallied, Bounds, InRange, Streamed, SnapshotOf;
    var g := Streamed(signals, cfg, n);
    GridLists(g, Ascending(g.Keys), lo, hi);
    CellsTellEvents(signals, cfg, n, start, price);
    SnapshotIsTold(g[start][price], Landing(signals, cfg, n, start, price), start, price);
    assert SnapshotOf(g[start][price], price) in f.cells;
  }

  /** Sum over the cells of a grid of a value that depends on their place. */
  ghost function SumOver(g: Grid, value: (nat, nat) -> int): int {
    MapSum(map b | b in g :: SumOfRow(g[b], b, value))
  }

  ghost function SumOfRow(r: Row, start: nat, value: (nat, nat) -> int): int {
    MapSum(map p | p in r :: value(start, p))
  }

  /** Totals of the digest, cell by cell. */
  lemma TotalIsSum(g: Grid, m: Measure, value: (nat, nat) -> int)
    requires forall b, p | b in g && p in g[b] :: Value(g[b][p], m) == value(b, p)
    ensures Total(g, m) == SumOver(g, value)
  {
    forall b | b in g ensures RowTotal(g[b], m) == SumOfRow(g[b], b, value) {
      assert RowValues(g[b], m) == map p | p in g[b] :: value(b, p);
    }
    assert RowTotals(g, m) == map b | b in g :: SumOfRow(g[b], b, value);
  }

  /** In every run the digest adds up, over the cells, what each side was last shown to rest, and how much it
      rose and fell. */
  lemma DigestTellsBook(signals: seq<Signal>, cfg: Settings, n: nat, d: Digest)
    requires ValidScale(cfg.scale) && n <= |signals|
    requires forall m :: Reading(d, m) == Total(Streamed(signals, cfg, n), m)
    ensures var g := Streamed(signals, cfg, n);
      var bids := (b: nat, p: nat) => Quantities(Landing(signals, cfg, n, b, p), Bid);
      var asks := (b: nat, p: nat) => Quantities(Landing(signals, cfg, n, b, p), Ask);
      && d.restingBid == SumOver(g, (b: nat, p: nat) => LastOf(bids(b, p)))
      && d.restingAsk == SumOver(g, (b: nat, p: nat) => LastOf(asks(b, p)))
      && d.added == SumOver(g, (b: nat, p: nat) => Rises(bids(b, p)) + Rises(asks(b, p)))
      && d.removed == SumOver(g, (b: nat, p: nat) => Falls(bids(b, p)) + Falls(asks(b, p)))
  {
    hide Streamed, Landing, Quantities, LastOf, Rises, Falls, Total, SumOver, Tells;
    var g := Streamed(signals, cfg, n);
    var bids := (b: nat, p: nat) => Quantities(Landing(signals, cfg, n, b, p), Bid);
    var asks := (b: nat, p: nat) => Quantities(Landing(signals, cfg, n, b, p), Ask);
    forall b, p | b in g && p in g[b] ensures BookTold(g[b][p], bids(b, p), asks(b, p)) {
      CellsTellEvents(signals, cfg, n, b, p);
      ToldBook(g[b][p], Landing(signals, cfg, n, b, p), b, p);
    }
    TotalIsSum(g, RestingBid, (b: nat, p: nat) => LastOf(bids(b, p)));
    TotalIsSum(g, RestingAsk, (b: nat, p: nat) => LastOf(asks(b, p)));
    TotalIsSum(g, Added, (b: nat, p: nat) => Rises(bids(b, p)) + Rises(asks(b, p)));
    TotalIsSum(g, Removed, (b: nat, p: nat) => Falls(bids(b, p)) + Falls(asks(b, p)));
    assert Reading(d, RestingBid) == d.restingBid && Reading(d, RestingAsk) == d.restingAsk;
    assert Reading(d, Added) == d.added && Reading(d, Removed) == d.removed;
  }

  predicate BookTold(c: Cell, bids: seq<nat>, asks: seq<nat>) {
    && c.restingBid == LastOf(bids) && c.restingAsk == LastOf(asks)
    && c.added == Rises(bids) + Rises(asks) && c.removed == Falls(bids) + Falls(asks)
  }

  lemma ToldBook(c: Cell, events: seq<Feed>, start: nat, price: nat)
    requires Tells(c, events, start, price)
    ensures BookTold(c, Quantities(events, Bid), Quantities(events, Ask))
  {
    hide Quantities, LastOf, Rises, Falls, TotalsOf;
  }
}
