/** The pruned, streaming heatmap equals one batch over the retained window. */
module HeatmapBatches {
  import opened Arithmetic
  import opened Heatmaps
  import opened Options
  import opened Wire
  import F = Flow

  datatype Signal = Fed(x: Feed) | PruneDue(now: nat)

  datatype Settings = Settings(scale: Scale, retention: nat)

  function Next(g: Grid, s: Signal, cfg: Settings): Grid
    requires ValidScale(cfg.scale)
  {
    match s
    case Fed(x) => Landed(g, x, cfg.scale)
    case PruneDue(now) => From(g, Saturating(now, cfg.retention))
  }

  /** The streaming heatmap after the first `n` signals. */
  function Streamed(signals: seq<Signal>, cfg: Settings, n: nat): Grid
    requires ValidScale(cfg.scale) && n <= |signals|
  {
    if n == 0 then map[] else Next(Streamed(signals, cfg, n - 1), signals[n - 1], cfg)
  }

  /** All events of the first `n` signals, nothing pruned. */
  function Batch(signals: seq<Signal>, cfg: Settings, n: nat): Grid
    requires ValidScale(cfg.scale) && n <= |signals|
  {
    if n == 0 then map[]
    else if signals[n - 1].Fed? then Landed(Batch(signals, cfg, n - 1), signals[n - 1].x, cfg.scale)
    else Batch(signals, cfg, n - 1)
  }

  /** No prune before signal `n` is for a later time. Events may carry any time. */
  ghost predicate PrunedUpTo(signals: seq<Signal>, n: nat, now: nat)
    requires n <= |signals|
  {
    forall i | 0 <= i < n && signals[i].PruneDue? :: signals[i].now <= now
  }

  /** The last signal is a prune, and none before it is for a later time. */
  ghost predicate EndsPruned(signals: seq<Signal>) {
    signals != [] && signals[|signals| - 1].PruneDue? && PrunedUpTo(signals, |signals|, signals[|signals| - 1].now)
  }

  lemma FromLanded(g: Grid, x: Feed, s: Scale, cutoff: nat)
    requires ValidScale(s)
    ensures From(Landed(g, x, s), cutoff)
         == if F.StartOf(x.time, s.width) >= cutoff then Landed(From(g, cutoff), x, s) else From(g, cutoff)
  {
    var start := F.StartOf(x.time, s.width);
    assert start >= cutoff ==> RowAt(From(g, cutoff), start) == RowAt(g, start);
  }

  lemma FromFrom(g: Grid, a: nat, b: nat)
    requires a <= b
    ensures From(From(g, a), b) == From(g, b)
  {
  }

  /** From the cutoff on, pruning changed nothing. */
  lemma {:induction false} PruningOnlyForgets(signals: seq<Signal>, cfg: Settings, n: nat, now: nat)
    requires ValidScale(cfg.scale) && n <= |signals| && PrunedUpTo(signals, n, now)
    ensures var cutoff := Saturating(now, cfg.retention);
      From(Streamed(signals, cfg, n), cutoff) == From(Batch(signals, cfg, n), cutoff)
  {
    hide From, Landed;
    if n > 0 {
      var cutoff := Saturating(now, cfg.retention);
      PruningOnlyForgets(signals, cfg, n - 1, now);
      var before, batch := Streamed(signals, cfg, n - 1), Batch(signals, cfg, n - 1);
      match signals[n - 1] {
        case Fed(x) =>
          FromLanded(before, x, cfg.scale, cutoff);
          FromLanded(batch, x, cfg.scale, cutoff);
        case PruneDue(earlier) => FromFrom(before, Saturating(earlier, cfg.retention), cutoff);
      }
    }
  }

  /** Right after a prune, the streaming heatmap is the batch restricted to the buckets that start
      at or after the cutoff. */
  lemma StreamedEqualsBatch(signals: seq<Signal>, cfg: Settings)
    requires ValidScale(cfg.scale) && EndsPruned(signals)
    ensures Streamed(signals, cfg, |signals|)
         == From(Batch(signals, cfg, |signals|), Saturating(signals[|signals| - 1].now, cfg.retention))
  {
    hide From;
    var n := |signals|;
    PruningOnlyForgets(signals, cfg, n - 1, signals[n - 1].now);
  }

  predicate LandsIn(s: Signal, cfg: Settings, start: nat, price: nat)
    requires ValidScale(cfg.scale)
  {
    s.Fed? && F.StartOf(s.x.time, cfg.scale.width) == start && GridPrice(PriceOf(s.x), cfg.scale.aggregation) == price
  }

  /** The events of one cell, folded; `None` if there is none. */
  function CellBatch(signals: seq<Signal>, cfg: Settings, n: nat, start: nat, price: nat): Option<Cell>
    requires ValidScale(cfg.scale) && n <= |signals|
  {
    if n == 0 then None
    else
      var before := CellBatch(signals, cfg, n - 1, start, price);
      if !LandsIn(signals[n - 1], cfg, start, price) then before
      else
        var c := if before.None? then NewCell(price).(bucket := Some(start)) else before.value;
        Some(CellAfter(c, signals[n - 1].x))
  }

  function Lookup(g: Grid, start: nat, price: nat): Option<Cell> {
    if start in g && price in g[start] then Some(g[start][price]) else None
  }

  lemma CellAfterPlace(c: Cell, x: Feed)
    ensures CellAfter(c, x).bucket == c.bucket && CellAfter(c, x).price == c.price
  {
  }

  lemma LookupLanded(g: Grid, x: Feed, s: Scale, start: nat, price: nat)
    requires ValidScale(s)
    ensures Lookup(Landed(g, x, s), start, price)
         == if F.StartOf(x.time, s.width) == start && GridPrice(PriceOf(x), s.aggregation) == price then
              Some(CellAfter(Located(CellAt(RowAt(g, start), price), start, price), x))
            else Lookup(g, start, price)
  {
  }

  /** Every cell of the batch is the fold of exactly the events that land in it. */
  lemma {:induction false} CellsAreFolds(signals: seq<Signal>, cfg: Settings, n: nat, start: nat, price: nat)
    requires ValidScale(cfg.scale) && n <= |signals|
    ensures Lookup(Batch(signals, cfg, n), start, price) == CellBatch(signals, cfg, n, start, price)
    ensures var c := CellBatch(signals, cfg, n, start, price);
      c.Some? ==> c.value.bucket == Some(start) && c.value.price == price
  {
    hide Landed, CellAfter;
    if n > 0 {
      CellsAreFolds(signals, cfg, n - 1, start, price);
      if signals[n - 1].Fed? {
        var g, x := Batch(signals, cfg, n - 1), signals[n - 1].x;
        LookupLanded(g, x, cfg.scale, start, price);
        CellAfterPlace(Located(CellAt(RowAt(g, start), price), start, price), x);
      }
    }
  }

  /** Right after a prune, every cell holds the fold of exactly the events of its price and bucket,
      and the cells present are those of the retained buckets with at least one event. */
  lemma RetainedCellsAreFolds(signals: seq<Signal>, cfg: Settings, start: nat, price: nat)
    requires ValidScale(cfg.scale) && EndsPruned(signals)
    ensures Lookup(Streamed(signals, cfg, |signals|), start, price)
         == if start < Saturating(signals[|signals| - 1].now, cfg.retention) then None
            else CellBatch(signals, cfg, |signals|, start, price)
  {
    hide Streamed, Batch, CellBatch;
    StreamedEqualsBatch(signals, cfg);
    CellsAreFolds(signals, cfg, |signals|, start, price);
  }

  /** Measures that an event changes by an amount of its own. */
  predicate Additive(m: Measure) {
    m !in {Levels, Added, Removed, RestingBid, RestingAsk}
  }

  function Contribution(x: Feed, m: Measure): int {
    match x
    case Traded(_, t) =>
      (match m
       case Buys => if t.aggressor == Buy then t.quantity else 0
       case Sells => if t.aggressor == Sell then t.quantity else 0
       case Delta => if t.aggressor == Buy then t.quantity else 0 - t.quantity
       case Pressure => if t.aggressor == Buy then t.quantity else 0 - t.quantity
       case Trades => 1
       case _ => 0)
    case LargeTraded(_, t) => if m == LargeVolume then t.quantity else 0
    case Shown(_, _) => 0
    case Swept(_, _) => if m == Sweeps then 1 else 0
    case Absorbed(_, _) => if m == Absorptions then 1 else 0
    case Refilled(_, _) => if m == Replenishments then 1 else 0
  }

  lemma CellGains(c: Cell, x: Feed, m: Measure)
    requires Additive(m)
    ensures Value(CellAfter(c, x), m) == Value(c, m) + Contribution(x, m)
  {
  }

  lemma GridGains(g: Grid, x: Feed, s: Scale, m: Measure)
    requires ValidScale(s) && Additive(m)
    ensures Total(Landed(g, x, s), m) == Total(g, m) + Contribution(x, m)
  {
    hide Total, RowTotal, CellAfter;
    var start, price := F.StartOf(x.time, s.width), GridPrice(PriceOf(x), s.aggregation);
    var row := RowAt(g, start);
    var c := Located(CellAt(row, price), start, price);
    CellGains(c, x, m);
    TotalSet(g, start, row[price := CellAfter(c, x)], m);
    RowTotalSet(row, price, CellAfter(c, x), m);
  }

  /** Sum over exactly the events whose bucket starts at or after the cutoff. */
  function WindowSum(signals: seq<Signal>, cfg: Settings, n: nat, cutoff: nat, m: Measure): int
    requires ValidScale(cfg.scale) && n <= |signals|
  {
    if n == 0 then 0
    else
      WindowSum(signals, cfg, n - 1, cutoff, m)
      + if signals[n - 1].Fed? && F.StartOf(signals[n - 1].x.time, cfg.scale.width) >= cutoff
        then Contribution(signals[n - 1].x, m) else 0
  }

  lemma {:induction false} BatchTotals(signals: seq<Signal>, cfg: Settings, n: nat, cutoff: nat, m: Measure)
    requires ValidScale(cfg.scale) && n <= |signals| && Additive(m)
    ensures Total(From(Batch(signals, cfg, n), cutoff), m) == WindowSum(signals, cfg, n, cutoff, m)
  {
    hide Total, Landed, From, Contribution;
    if n == 0 {
      EmptyFrom(cutoff);
      NothingTotal();
    } else {
      BatchTotals(signals, cfg, n - 1, cutoff, m);
      if signals[n - 1].Fed? {
        var g, x := Batch(signals, cfg, n - 1), signals[n - 1].x;
        FromLanded(g, x, cfg.scale, cutoff);
        GridGains(From(g, cutoff), x, cfg.scale, m);
      }
    }
  }

  lemma EmptyFrom(cutoff: nat)
    ensures From(map[], cutoff) == map[]
  {
  }

  /** Right after a prune, executed volume, delta, counts and pressure in the digest are the sums over
      exactly the events whose bucket starts at least `now - retention`. */
  lemma DigestEqualsWindow(signals: seq<Signal>, cfg: Settings, m: Measure)
    requires ValidScale(cfg.scale) && EndsPruned(signals) && Additive(m)
    ensures Total(Streamed(signals, cfg, |signals|), m)
         == WindowSum(signals, cfg, |signals|, Saturating(signals[|signals| - 1].now, cfg.retention), m)
  {
    hide Total, From, Streamed, Batch, WindowSum;
    StreamedEqualsBatch(signals, cfg);
    BatchTotals(signals, cfg, |signals|, Saturating(signals[|signals| - 1].now, cfg.retention), m);
  }

  /** What every cell keeps. */
  predicate CellSound(c: Cell) {
    && c.delta == c.pressure == c.buy - c.sell
    && c.added - c.removed == c.restingBid + c.restingAsk
  }

  ghost predicate GridSound(g: Grid) {
    forall b, p | b in g && p in g[b] :: CellSound(g[b][p])
  }

  lemma CellStaysSound(c: Cell, x: Feed, start: nat, price: nat)
    requires CellSound(c)
    ensures CellSound(CellAfter(Located(c, start, price), x)) && CellSound(NewCell(price))
  {
  }

  lemma LandedStaysSound(g: Grid, x: Feed, s: Scale)
    requires ValidScale(s) && GridSound(g)
    ensures GridSound(Landed(g, x, s))
  {
    hide CellAfter, CellSound;
    var start, price := F.StartOf(x.time, s.width), GridPrice(PriceOf(x), s.aggregation);
    var c := CellAt(RowAt(g, start), price);
    assert CellSound(NewCell(price)) by { FreshCellSound(price); }
    CellStaysSound(c, x, start, price);
  }

  lemma FreshCellSound(price: nat)
    ensures CellSound(NewCell(price))
  {
  }

  lemma CellDifference(c: Cell)
    requires CellSound(c)
    ensures Value(c, Added) - Value(c, Removed) == Value(c, RestingBid) + Value(c, RestingAsk)
    ensures Value(c, Delta) == Value(c, Pressure) == Value(c, Buys) - Value(c, Sells)
  {
  }

  lemma RowSplit(r: Row, rest: Row, p: nat)
    requires p in r && p !in rest && r == rest[p := r[p]]
    ensures forall m :: RowTotal(r, m) == RowTotal(rest, m) + Value(r[p], m)
  {
    OneMoreCell(rest, p, r[p]);
  }

  lemma {:induction false} SumsKeepDifference(r: Row)
    requires forall p | p in r :: CellSound(r[p])
    ensures RowTotal(r, Added) - RowTotal(r, Removed) == RowTotal(r, RestingBid) + RowTotal(r, RestingAsk)
    ensures RowTotal(r, Delta) == RowTotal(r, Pressure) == RowTotal(r, Buys) - RowTotal(r, Sells)
    decreases |r|
  {
    hide RowTotal, CellSound, Value, Total, Reading;
    if r == map[] {
      NothingTotal();
    } else {
      var p :| p in r;
      var rest := r - {p};
      SumsKeepDifference(rest);
      assert rest[p := r[p]] == r;
      RowSplit(r, rest, p);
      CellDifference(r[p]);
    }
  }

  lemma {:induction false} TotalsKeepDifference(g: Grid)
    requires GridSound(g)
    ensures Total(g, Added) - Total(g, Removed) == Total(g, RestingBid) + Total(g, RestingAsk)
    ensures Total(g, Delta) == Total(g, Pressure) == Total(g, Buys) - Total(g, Sells)
    decreases |g|
  {
    hide RowTotal, Total, CellSound;
    if g == map[] {
      NothingTotal();
    } else {
      var b :| b in g;
      var rest := g - {b};
      TotalsKeepDifference(rest);
      SumsKeepDifference(g[b]);
      assert rest[b := g[b]] == g;
      OneMoreRow(rest, b, g[b]);
    }
  }

  /** In every state of every run, whatever the order of times, each cell and the digest balance:
      delta is pressure is bought minus sold, and added minus removed is what rests on both sides. */
  lemma {:induction false} CellsAlwaysBalance(signals: seq<Signal>, cfg: Settings, n: nat)
    requires ValidScale(cfg.scale) && n <= |signals|
    ensures var g := Streamed(signals, cfg, n);
      && GridSound(g)
      && Total(g, Added) - Total(g, Removed) == Total(g, RestingBid) + Total(g, RestingAsk)
      && Total(g, Delta) == Total(g, Pressure) == Total(g, Buys) - Total(g, Sells)
  {
    hide Total, Landed;
    if n > 0 {
      CellsAlwaysBalance(signals, cfg, n - 1);
      if signals[n - 1].Fed? {
        LandedStaysSound(Streamed(signals, cfg, n - 1), signals[n - 1].x, cfg.scale);
      }
    }
    TotalsKeepDifference(Streamed(signals, cfg, n));
  }
}
