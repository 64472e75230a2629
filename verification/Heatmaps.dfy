/** The price by time heatmap (src/analytics/heatmap.rs). */
module Heatmaps {
  import opened Arithmetic
  import opened Options
  import opened Shadow
  import opened Sums
  import opened Wire
  import F = Flow

  datatype Cell = Cell(
    price: nat,
    restingBid: nat,
    restingAsk: nat,
    added: nat,
    removed: nat,
    buy: nat,
    sell: nat,
    delta: int,
    trades: nat,
    largeVolume: nat,
    replenishments: nat,
    absorptions: nat,
    sweeps: nat,
    pressure: int,
    bucket: Option<nat>)

  type Row = map<nat, Cell>
  type Grid = map<nat, Row>

  function NewCell(price: nat): Cell {
    Cell(price, 0, 0, 0, 0, 0, 0, 0, 0, 0, 0, 0, 0, 0, None)
  }

  datatype Feed =
    | Traded(time: nat, trade: Trade)
    | LargeTraded(time: nat, trade: Trade)
    | Shown(time: nat, change: LevelChange)
    | Swept(time: nat, tick: nat)
    | Absorbed(time: nat, tick: nat)
    | Refilled(time: nat, tick: nat)

  function PriceOf(x: Feed): nat {
    match x
    case Traded(_, t) => t.price
    case LargeTraded(_, t) => t.price
    case Shown(_, c) => c.price
    case Swept(_, p) => p
    case Absorbed(_, p) => p
    case Refilled(_, p) => p
  }

  /** Resting quantity of one side set to what is displayed now; the difference is added or removed. */
  function ShownIn(c: Cell, side: BookSide, quantity: nat): Cell {
    var was := if side == Bid then c.restingBid else c.restingAsk;
    var counted :=
      if quantity > was then c.(added := c.added + (quantity - was))
      else c.(removed := c.removed + (was - quantity));
    if side == Bid then counted.(restingBid := quantity) else counted.(restingAsk := quantity)
  }

  function CellAfter(c: Cell, x: Feed): Cell {
    match x
    case Traded(_, t) =>
      c.(trades := c.trades + 1,
      buy := c.buy + F.BuyQuantity(t), sell := c.sell + F.SellQuantity(t),
      delta := c.delta + F.Signed(t), pressure := c.pressure + F.Signed(t))
    case LargeTraded(_, t) => c.(largeVolume := c.largeVolume + t.quantity)
    case Shown(_, l) => ShownIn(c, l.side, l.newQuantity)
    case Swept(_, _) => c.(sweeps := c.sweeps + 1)
    case Absorbed(_, _) => c.(absorptions := c.absorptions + 1)
    case Refilled(_, _) => c.(replenishments := c.replenishments + 1)
  }

  datatype Scale = Scale(width: nat, aggregation: nat)

  predicate ValidScale(s: Scale) {
    s.width > 0 && s.aggregation > 0
  }

  function GridPrice(tick: nat, aggregation: nat): nat
    requires aggregation > 0
  {
    if aggregation == 1 then tick else tick / aggregation
  }

  function RowAt(g: Grid, start: nat): Row {
    if start in g then g[start] else map[]
  }

  function CellAt(r: Row, price: nat): Cell {
    if price in r then r[price] else NewCell(price)
  }

  function Stored(g: Grid, start: nat, price: nat, c: Cell): Grid {
    g[start := RowAt(g, start)[price := c]]
  }

  function Located(c: Cell, start: nat, price: nat): Cell {
    c.(bucket := Some(start), price := price)
  }

  /** One event lands in one cell, which is made if it is not there yet. */
  function Landed(g: Grid, x: Feed, s: Scale): Grid
    requires ValidScale(s)
  {
    var start, price := F.StartOf(x.time, s.width), GridPrice(PriceOf(x), s.aggregation);
    Stored(g, start, price, CellAfter(Located(CellAt(RowAt(g, start), price), start, price), x))
  }

  function From(g: Grid, cutoff: nat): Grid {
    map b | b in g && b >= cutoff :: g[b]
  }

  /** Everything that is summed over cells. */
  datatype Measure =
    | Levels | Buys | Sells | Delta | Trades | Added | Removed | RestingBid | RestingAsk
    | LargeVolume | Replenishments | Absorptions | Sweeps | Pressure

  function Value(c: Cell, m: Measure): int {
    match m
    case Levels => 1
    case Buys => c.buy
    case Sells => c.sell
    case Delta => c.delta
    case Trades => c.trades
    case Added => c.added
    case Removed => c.removed
    case RestingBid => c.restingBid
    case RestingAsk => c.restingAsk
    case LargeVolume => c.largeVolume
    case Replenishments => c.replenishments
    case Absorptions => c.absorptions
    case Sweeps => c.sweeps
    case Pressure => c.pressure
  }

  ghost function RowValues(r: Row, m: Measure): map<nat, int> {
    map p | p in r :: Value(r[p], m)
  }

  ghost function RowTotal(r: Row, m: Measure): int {
    MapSum(RowValues(r, m))
  }

  ghost function RowTotals(g: Grid, m: Measure): map<nat, int> {
    map b | b in g :: RowTotal(g[b], m)
  }

  ghost function Total(g: Grid, m: Measure): int {
    MapSum(RowTotals(g, m))
  }

  datatype Digest = Digest(
    buckets: nat, levels: int, buy: int, sell: int, delta: int, trades: int, added: int, removed: int,
    restingBid: int, restingAsk: int, largeVolume: int, replenishments: int, absorptions: int, sweeps: int,
    pressure: int)

  const EmptyDigest := Digest(0, 0, 0, 0, 0, 0, 0, 0, 0, 0, 0, 0, 0, 0, 0)

  function Reading(d: Digest, m: Measure): int {
    match m
    case Levels => d.levels
    case Buys => d.buy
    case Sells => d.sell
    case Delta => d.delta
    case Trades => d.trades
    case Added => d.added
    case Removed => d.removed
    case RestingBid => d.restingBid
    case RestingAsk => d.restingAsk
    case LargeVolume => d.largeVolume
    case Replenishments => d.replenishments
    case Absorptions => d.absorptions
    case Sweeps => d.sweeps
    case Pressure => d.pressure
  }

  function Digested(d: Digest, c: Cell): (r: Digest)
    ensures r.buckets == d.buckets
    ensures forall m :: Reading(r, m) == Reading(d, m) + Value(c, m)
  {
    Digest(d.buckets, d.levels + 1, d.buy + c.buy, d.sell + c.sell, d.delta + c.delta, d.trades + c.trades,
           d.added + c.added, d.removed + c.removed, d.restingBid + c.restingBid, d.restingAsk + c.restingAsk,
           d.largeVolume + c.largeVolume, d.replenishments + c.replenishments, d.absorptions + c.absorptions,
           d.sweeps + c.sweeps, d.pressure + c.pressure)
  }

  lemma RowTotalSet(r: Row, p: nat, c: Cell, m: Measure)
    ensures RowTotal(r[p := c], m) == RowTotal(r, m) - (if p in r then Value(r[p], m) else 0) + Value(c, m)
  {
    assert RowValues(r[p := c], m) == RowValues(r, m)[p := Value(c, m)];
    MapSumSet(RowValues(r, m), p, Value(c, m));
  }

  lemma TotalSet(g: Grid, b: nat, r: Row, m: Measure)
    ensures Total(g[b := r], m) == Total(g, m) - RowTotal(RowAt(g, b), m) + RowTotal(r, m)
  {
    assert RowTotals(g[b := r], m) == RowTotals(g, m)[b := RowTotal(r, m)];
    MapSumSet(RowTotals(g, m), b, RowTotal(r, m));
    if b !in g { assert RowValues(map[], m) == map[]; }
  }

  lemma NothingTotal()
    ensures forall m :: RowTotal(map[], m) == 0 && Total(map[], m) == 0 && Reading(EmptyDigest, m) == 0
  {
    forall m ensures RowTotal(map[], m) == 0 && Total(map[], m) == 0 {
      assert RowValues(map[], m) == map[] && RowTotals(map[], m) == map[];
    }
  }

  lemma OneMoreCell(r: Row, p: nat, c: Cell)
    requires p !in r
    ensures forall m :: RowTotal(r[p := c], m) == RowTotal(r, m) + Value(c, m)
  {
    forall m ensures RowTotal(r[p := c], m) == RowTotal(r, m) + Value(c, m) {
      RowTotalSet(r, p, c, m);
    }
  }

  lemma OneMoreRow(g: Grid, b: nat, r: Row)
    requires b !in g
    ensures forall m :: Total(g[b := r], m) == Total(g, m) + RowTotal(r, m)
    ensures |g[b := r]| == |g| + 1
  {
    assert g[b := r].Keys == g.Keys + {b};
    NothingTotal();
    forall m ensures Total(g[b := r], m) == Total(g, m) + RowTotal(r, m) {
      TotalSet(g, b, r, m);
    }
  }

  lemma Counted(d: Digest, n: nat)
    ensures forall m :: Reading(d.(buckets := n), m) == Reading(d, m)
  {
  }

  lemma SameMap<K, V>(a: map<K, V>, b: map<K, V>)
    requires a.Keys <= b.Keys && b.Keys - a.Keys == {} && forall k | k in a :: a[k] == b[k]
    ensures a == b
  {
    forall k | k in b ensures k in a {
      assert k !in b.Keys - a.Keys;
    }
  }

  class Heatmap {
    const width: nat
    const retention: nat
    var aggregation: nat
    var buckets: Grid

    ghost predicate Valid()
      reads this
    {
      width > 0 && aggregation > 0
    }

    function Scaling(): Scale
      reads this
    {
      Scale(width, aggregation)
    }

    constructor (width: nat, retention: nat)
      requires width > 0
      ensures Valid() && buckets == map[] && aggregation == 1 && this.width == width && this.retention == retention
    {
      this.width, this.retention := width, retention;
      aggregation, buckets := 1, map[];
    }

    method SetPriceAggregation(a: nat)
      requires Valid()
      modifies this`aggregation
      ensures Valid() && aggregation == if a in {1, 5, 10, 25, 50} then a else 1
    {
      aggregation := if a == 1 || a == 5 || a == 10 || a == 25 || a == 50 then a else 1;
    }

    /** The cell of a price at a time, made if need be, stamped with its place. */
    method Entry(tick: nat, time: nat) returns (start: nat, price: nat, c: Cell)
      requires Valid()
      ensures start == F.StartOf(time, width) && price == GridPrice(tick, aggregation)
      ensures c == Located(CellAt(RowAt(buckets, start), price), start, price)
    {
      start := time - time % width;
      price := if aggregation == 1 then tick else tick / aggregation;
      var row := if start in buckets then buckets[start] else map[];
      c := if price in row then row[price] else NewCell(price);
      c := c.(bucket := Some(start), price := price);
    }

    method OnTrade(t: Trade)
      requires Valid()
      modifies this`buckets
      ensures buckets == Landed(old(buckets), Traded(t.tradeTime, t), Scaling())
    {
      var start, price, c := Entry(t.price, t.tradeTime);
      c := c.(trades := c.trades + 1);
      match t.aggressor {
        case Buy =>
          c := c.(buy := c.buy + t.quantity);
          c := c.(delta := c.delta + t.quantity);
          c := c.(pressure := c.pressure + t.quantity);
        case Sell =>
          c := c.(sell := c.sell + t.quantity);
          c := c.(delta := c.delta - t.quantity);
          c := c.(pressure := c.pressure - t.quantity);
      }
      buckets := Stored(buckets, start, price, c);
    }

    method OnLargeTrade(t: Trade)
      requires Valid()
      modifies this`buckets
      ensures buckets == Landed(old(buckets), LargeTraded(t.tradeTime, t), Scaling())
    {
      var start, price, c := Entry(t.price, t.tradeTime);
      buckets := Stored(buckets, start, price, c.(largeVolume := c.largeVolume + t.quantity));
    }

    method OnLevelChange(l: LevelChange, time: nat)
      requires Valid()
      modifies this`buckets
      ensures buckets == Landed(old(buckets), Shown(time, l), Scaling())
    {
      var start, price, c := Entry(l.price, time);
      var now := l.newQuantity;
      match l.side {
        case Bid =>
          var was := c.restingBid;
          if now > was {
            c := c.(added := c.added + (now - was), restingBid := now);
          } else if now < was {
            c := c.(removed := c.removed + (was - now), restingBid := now);
          }
        case Ask =>
          var was := c.restingAsk;
          if now > was {
            c := c.(added := c.added + (now - was), restingAsk := now);
          } else if now < was {
            c := c.(removed := c.removed + (was - now), restingAsk := now);
          }
      }
      buckets := Stored(buckets, start, price, c);
    }

    method OnSweep(tick: nat, time: nat)
      requires Valid()
      modifies this`buckets
      ensures buckets == Landed(old(buckets), Swept(time, tick), Scaling())
    {
      var start, price, c := Entry(tick, time);
      buckets := Stored(buckets, start, price, c.(sweeps := c.sweeps + 1));
    }

    method OnAbsorption(tick: nat, time: nat)
      requires Valid()
      modifies this`buckets
      ensures buckets == Landed(old(buckets), Absorbed(time, tick), Scaling())
    {
      var start, price, c := Entry(tick, time);
      buckets := Stored(buckets, start, price, c.(absorptions := c.absorptions + 1));
    }

    method OnReplenishment(tick: nat, time: nat)
      requires Valid()
      modifies this`buckets
      ensures buckets == Landed(old(buckets), Refilled(time, tick), Scaling())
    {
      var start, price, c := Entry(tick, time);
      buckets := Stored(buckets, start, price, c.(replenishments := c.replenishments + 1));
    }

    method Prune(now: nat)
      modifies this`buckets
      ensures buckets == From(old(buckets), Saturating(now, retention))
    {
      var cutoff := if now < retention then 0 else now - retention;
      var stale := set b | b in buckets && b < cutoff;
      buckets := buckets - stale;
    }

    /** Sums over all cells of all buckets. */
    method TakeDigest() returns (d: Digest)
      ensures d.buckets == |buckets|
      ensures forall m :: Reading(d, m) == Total(buckets, m)
    {
      hide Total, RowTotal, Reading;
      d := EmptyDigest;
      var count := 0;
      NothingTotal();
      var starts := buckets.Keys;
      ghost var done: Grid := map[];
      while starts != {}
        invariant starts == buckets.Keys - done.Keys && done.Keys <= buckets.Keys
        invariant forall b | b in done :: done[b] == buckets[b]
        invariant count == |done|
        invariant forall m :: Reading(d, m) == Total(done, m)
        decreases starts
      {
        var b :| b in starts;
        assert b !in done;
        OneMoreRow(done, b, buckets[b]);
        count := count + 1;
        d := DigestRow(d, buckets[b]);
        done := done[b := buckets[b]];
        starts := starts - {b};
      }
      SameMap(done, buckets);
      Counted(d, count);
      d := d.(buckets := count);
    }

    method DigestRow(d0: Digest, row: Row) returns (d: Digest)
      ensures forall m :: Reading(d, m) == Reading(d0, m) + RowTotal(row, m)
    {
      d := d0;
      var prices := row.Keys;
      ghost var done: Row := map[];
      hide RowTotal, Reading;
      NothingTotal();
      while prices != {}
        invariant prices == row.Keys - done.Keys && done.Keys <= row.Keys
        invariant forall p | p in done :: done[p] == row[p]
        invariant forall m :: Reading(d, m) == Reading(d0, m) + RowTotal(done, m)
        decreases prices
      {
        var p :| p in prices;
        assert p !in done;
        OneMoreCell(done, p, row[p]);
        d := Digested(d, row[p]);
        done := done[p := row[p]];
        prices := prices - {p};
      }
      SameMap(done, row);
    }
  }
}
