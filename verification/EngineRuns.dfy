/** Whole runs of the analytics engine: interval snapshots integrate to the session, and liquidity is
    conserved between clears. */
module EngineRuns {
  import opened Arithmetic
  import opened Engine
  import opened Flow
  import opened Liquidity
  import opened Options
  import opened OrderBooks
  import opened Shadow
  import opened Wire
  import A = Absorption
  import B = HeatmapBatches
  import C = Clusters
  import H = Heatmaps

  datatype Input = Event(x: MarketEvent) | Force

  function Next(s: EngineState, input: Input, cfg: EngineConfig): EngineState
    requires ValidConfig(cfg)
  {
    match input
    case Event(x) => Processed(s, x, cfg)
    case Force => if s.lastEvent.None? then s else Reset(s, s.lastEvent.value)
  }

  function Out(s: EngineState, input: Input, cfg: EngineConfig): seq<MarketSnapshot>
    requires ValidConfig(cfg)
  {
    match input
    case Event(x) => Finalized(s, x, cfg)
    case Force => if s.lastEvent.None? then [] else [SnapshotAt(s, s.lastEvent.value, cfg)]
  }

  function Run(s: EngineState, inputs: seq<Input>, cfg: EngineConfig, n: nat): EngineState
    requires ValidConfig(cfg) && n <= |inputs|
  {
    if n == 0 then s else Next(Run(s, inputs, cfg, n - 1), inputs[n - 1], cfg)
  }

  function Snapshots(s: EngineState, inputs: seq<Input>, cfg: EngineConfig, n: nat): seq<MarketSnapshot>
    requires ValidConfig(cfg) && n <= |inputs|
  {
    if n == 0 then [] else Snapshots(s, inputs, cfg, n - 1) + Out(Run(s, inputs, cfg, n - 1), inputs[n - 1], cfg)
  }

  /** What is counted both per interval and over the session. */
  datatype Tally = Volume | Buys | Sells | Delta | LargeTrades | Sweeps | Absorptions | Replenishments

  function InInterval(i: Interval, t: Tally): int {
    match t
    case Volume => i.tradeVolume
    case Buys => i.buyVolume
    case Sells => i.sellVolume
    case Delta => i.delta
    case LargeTrades => i.largeTrades
    case Sweeps => i.sweeps
    case Absorptions => i.absorptions
    case Replenishments => i.replenishments
  }

  function InSession(s: EngineState, t: Tally): int {
    match t
    case Volume => s.flow.totals.buyVolume + s.flow.totals.sellVolume
    case Buys => s.flow.totals.buyVolume
    case Sells => s.flow.totals.sellVolume
    case Delta => s.flow.totals.cvd
    case LargeTrades => s.session.largeTrades
    case Sweeps => s.session.sweeps
    case Absorptions => s.absorption.count
    case Replenishments => s.liquidity.replenishments
  }

  /** The part of the session that earlier intervals counted. */
  function Settled(s: EngineState, t: Tally): int {
    InSession(s, t) - InInterval(s.interval, t)
  }

  function Sum(snapshots: seq<MarketSnapshot>, t: Tally): int {
    if snapshots == [] then 0
    else Sum(snapshots[..|snapshots| - 1], t) + InInterval(snapshots[|snapshots| - 1].interval, t)
  }

  lemma LevelSettles(s: EngineState, c: LevelChange, time: nat, cfg: EngineConfig, t: Tally)
    requires ValidConfig(cfg)
    ensures Settled(LevelTaken(s, c, time, cfg), t) == Settled(s, t)
  {
    hide H.Landed;
  }

  lemma {:induction false} LevelsSettle(s: EngineState, changes: seq<LevelChange>, time: nat, cfg: EngineConfig,
                                        t: Tally)
    requires ValidConfig(cfg)
    ensures Settled(LevelsTaken(s, changes, time, cfg), t) == Settled(s, t)
    decreases |changes|
  {
    hide LevelTaken, Settled;
    if changes != [] {
      LevelSettles(s, changes[0], time, cfg, t);
      LevelsSettle(LevelTaken(s, changes[0], time, cfg), changes[1..], time, cfg, t);
    }
  }

  lemma BookChangeSettles(s: EngineState, id: nat, time: nat, bids: seq<Level>, asks: seq<Level>, cfg: EngineConfig,
                          t: Tally)
    requires ValidConfig(cfg)
    ensures Settled(BookChanged(s, id, time, bids, asks, cfg), t) == Settled(s, t)
  {
    hide LevelsTaken, Changes, Overlay, Crossed;
    var changes := Changes(s.shadow.bids, bids, Bid) + Changes(s.shadow.asks, asks, Ask);
    LevelsSettle(s.(lastEvent := Some(time), shadow := ShadowUpdate(s.shadow, bids, asks, id)), changes, time, cfg, t);
  }

  lemma TradeSettles(s: EngineState, trade: Trade, cfg: EngineConfig, t: Tally)
    requires ValidConfig(cfg)
    ensures Settled(TradeTaken(s, trade, cfg), t) == Settled(s, t)
  {
    hide FlowTaken, LargeChecked, Clustered, AbsorptionChecked, Settled;
    var a := FlowTaken(s, trade, cfg);
    FlowSettles(s, trade, cfg, t);
    LargeSettles(a, trade, cfg, t);
    SweepSettles(LargeChecked(a, trade, cfg), trade, cfg, t);
    AbsorptionSettles(Clustered(LargeChecked(a, trade, cfg), trade, cfg), trade, cfg, t);
  }

  lemma FlowSettles(s: EngineState, trade: Trade, cfg: EngineConfig, t: Tally)
    requires ValidConfig(cfg)
    ensures Settled(FlowTaken(s, trade, cfg), t) == Settled(s, t)
  {
    hide H.Landed;
  }

  lemma LargeSettles(s: EngineState, trade: Trade, cfg: EngineConfig, t: Tally)
    requires ValidConfig(cfg)
    ensures Settled(LargeChecked(s, trade, cfg), t) == Settled(s, t)
  {
    hide H.Landed;
  }

  lemma SweepSettles(s: EngineState, trade: Trade, cfg: EngineConfig, t: Tally)
    requires ValidConfig(cfg)
    ensures Settled(Clustered(s, trade, cfg), t) == Settled(s, t)
  {
    hide H.Landed, SweepBy;
  }

  lemma AbsorptionSettles(s: EngineState, trade: Trade, cfg: EngineConfig, t: Tally)
    requires ValidConfig(cfg)
    ensures Settled(AbsorptionChecked(s, trade, cfg), t) == Settled(s, t)
  {
    hide H.Landed, AsksAbsorption, A.Evaluated, BestFor, OpposingDepth;
  }

  /** No event moves anything between the session and the settled intervals. */
  lemma EventSettles(s: EngineState, x: MarketEvent, cfg: EngineConfig, t: Tally)
    requires ValidConfig(cfg)
    ensures Settled(Taken(s, x, cfg), t) == Settled(s, t)
  {
    hide BookChanged, TradeTaken, ShadowSnapshot, Crossed;
    match x {
      case BookUpdated(id, time, bids, asks) => BookChangeSettles(s, id, time, bids, asks, cfg, t);
      case TradeEvent(trade) => TradeSettles(s, trade, cfg, t);
      case _ =>
    }
  }

  /** What a trade leaves alone. */
  lemma TradeFrame(s: EngineState, t: Trade, cfg: EngineConfig)
    requires ValidConfig(cfg)
    ensures var r := TradeTaken(s, t, cfg);
      && r.shadow == s.shadow && r.liquidity == s.liquidity && r.crossed == s.crossed
      && r.lastSnapshot == s.lastSnapshot && r.lastEvent == Some(t.tradeTime)
      && r.interval.anomalies == s.interval.anomalies && r.interval.replenishments == s.interval.replenishments
  {
    hide H.Landed, SweepBy, AsksAbsorption, A.Asked, A.Found, FlowAfter, LargeAfter, OpposingDepth;
    hide BestFor;
    hide C.Joined, C.Closes;
    var a := FlowTaken(s, t, cfg);
    var b := LargeChecked(a, t, cfg);
    var c := Clustered(b, t, cfg);
    assert c.shadow == s.shadow && c.liquidity == s.liquidity;
    assert c.crossed == s.crossed && c.lastSnapshot == s.lastSnapshot;
    assert c.lastEvent == Some(t.tradeTime);
  }

  lemma SumOne(snapshots: seq<MarketSnapshot>, more: MarketSnapshot, t: Tally)
    ensures Sum(snapshots + [more], t) == Sum(snapshots, t) + InInterval(more.interval, t)
  {
    assert (snapshots + [more])[..|snapshots|] == snapshots;
  }

  lemma InputSettles(s: EngineState, snapshots: seq<MarketSnapshot>, input: Input, cfg: EngineConfig, t: Tally)
    requires ValidConfig(cfg) && Sum(snapshots, t) == Settled(s, t)
    ensures Sum(snapshots + Out(s, input, cfg), t) == Settled(Next(s, input, cfg), t)
    ensures Out(s, input, cfg) != [] ==>
      |Out(s, input, cfg)| == 1 && (t == Delta ==> Out(s, input, cfg)[0].cvd == Sum(snapshots + Out(s, input, cfg), t))
  {
    hide Sum, Next, Out, Before;
    var out := Out(s, input, cfg);
    OutputShape(s, input, cfg);
    BeforeSettles(s, input, cfg, t);
    if out != [] {
      SumOne(snapshots, out[0], t);
      assert out == [out[0]];
    } else {
      assert snapshots + out == snapshots;
    }
  }

  /** The state in which a snapshot of the input would be taken. */
  function Before(s: EngineState, input: Input, cfg: EngineConfig): EngineState
    requires ValidConfig(cfg)
  {
    if input.Event? then Taken(s, input.x, cfg) else s
  }

  lemma BeforeSettles(s: EngineState, input: Input, cfg: EngineConfig, t: Tally)
    requires ValidConfig(cfg)
    ensures Settled(Before(s, input, cfg), t) == Settled(s, t)
  {
    hide Taken;
    if input.Event? { EventSettles(s, input.x, cfg, t); }
  }

  /** What an input does to counters and snapshot times, with and without a snapshot. */
  lemma OutputShape(s: EngineState, input: Input, cfg: EngineConfig)
    requires ValidConfig(cfg)
    ensures var before, out, next := Before(s, input, cfg), Out(s, input, cfg), Next(s, input, cfg);
      && next.flow.totals == before.flow.totals && next.session == before.session && next.shadow == before.shadow
      && next.absorption == before.absorption && next.flow.volumeByPrice == before.flow.volumeByPrice
      && next.liquidity.replenishments == before.liquidity.replenishments
      && (out == [] ==> next.interval == before.interval && next.lastSnapshot == before.lastSnapshot
                        && Balance(next.liquidity) == Balance(before.liquidity))
      && (out != [] ==> |out| == 1 && next.interval == EmptyInterval && next.lastSnapshot == Some(out[0].timestamp)
                        && Balance(next.liquidity) == 0
                        && out[0].interval == before.interval && out[0].cvd == before.flow.totals.cvd
                        && out[0].added - out[0].removed == Balance(before.liquidity)
                        && (input.Event? ==> Due(before.lastSnapshot, out[0].timestamp, cfg)))
  {
    hide Taken, H.From, Vanished, AllTrimmed, Crossed, Due, Retained, C.Expired, Saturating;
  }

  /** For every event sequence with snapshots at any points: what the snapshots counted, plus the
      current interval, is what the session counted; and the cumulative delta of every snapshot is
      the sum of the deltas of the snapshots up to it. */
  lemma {:induction false} SnapshotsIntegrate(inputs: seq<Input>, cfg: EngineConfig, n: nat, t: Tally)
    requires ValidConfig(cfg) && n <= |inputs|
    ensures var s, snapshots := Run(FreshEngine, inputs, cfg, n), Snapshots(FreshEngine, inputs, cfg, n);
      && Sum(snapshots, t) + InInterval(s.interval, t) == InSession(s, t)
      && (t == Delta ==> forall i | 0 <= i < |snapshots| :: snapshots[i].cvd == Sum(snapshots[..i + 1], t))
  {
    hide Next, Out, Sum;
    if n == 0 {
      SumNothing(t);
    } else {
      SnapshotsIntegrate(inputs, cfg, n - 1, t);
      var s, before := Run(FreshEngine, inputs, cfg, n - 1), Snapshots(FreshEngine, inputs, cfg, n - 1);
      InputSettles(s, before, inputs[n - 1], cfg, t);
      var after := Snapshots(FreshEngine, inputs, cfg, n);
      assert after == before + Out(s, inputs[n - 1], cfg);
      forall i | 0 <= i < |after| && t == Delta ensures after[i].cvd == Sum(after[..i + 1], t) {
        if i < |before| {
          assert after[..i + 1] == before[..i + 1];
        } else {
          assert after[..i + 1] == after;
        }
      }
    }
  }

  lemma SumNothing(t: Tally)
    ensures Sum([], t) == 0
  {
  }

  /** Which snapshots were forced. */
  function Forced(inputs: seq<Input>, cfg: EngineConfig, n: nat): seq<bool>
    requires ValidConfig(cfg) && n <= |inputs|
  {
    if n == 0 then []
    else
      Forced(inputs, cfg, n - 1)
      + seq(|Out(Run(FreshEngine, inputs, cfg, n - 1), inputs[n - 1], cfg)|, i => inputs[n - 1].Force?)
  }

  ghost predicate Spaced(snapshots: seq<MarketSnapshot>, forced: seq<bool>, cfg: EngineConfig) {
    && |forced| == |snapshots|
    && forall i, j | 0 <= i < |snapshots| && 0 <= j < |snapshots| && j == i + 1 && !forced[j] ::
         snapshots[i].timestamp + Spacing(cfg) <= snapshots[j].timestamp
  }

  function LastTime(snapshots: seq<MarketSnapshot>): Option<nat> {
    if snapshots == [] then None else Some(snapshots[|snapshots| - 1].timestamp)
  }

  lemma TakingKeepsLast(s: EngineState, x: MarketEvent, cfg: EngineConfig)
    requires ValidConfig(cfg)
    ensures Taken(s, x, cfg).lastSnapshot == s.lastSnapshot
    ensures Taken(s, x, cfg).lastEvent == if SnapshotTime(x).Some? then SnapshotTime(x) else s.lastEvent
  {
    hide TradeTaken, Crossed, Changes, Overlay, LevelsTaken, ShadowSnapshot;
    if x.BookUpdated? {
      var changes := Changes(s.shadow.bids, x.bids, Bid) + Changes(s.shadow.asks, x.asks, Ask);
      LevelsKeepLast(s.(lastEvent := Some(x.time), shadow := ShadowUpdate(s.shadow, x.bids, x.asks, x.id)), changes,
                     x.time, cfg);
    }
    if x.TradeEvent? { TradeFrame(s, x.trade, cfg); }
  }

  lemma {:induction false} LevelsKeepLast(s: EngineState, changes: seq<LevelChange>, time: nat, cfg: EngineConfig)
    requires ValidConfig(cfg)
    ensures LevelsTaken(s, changes, time, cfg).lastSnapshot == s.lastSnapshot
    ensures LevelsTaken(s, changes, time, cfg).shadow == s.shadow
    ensures LevelsTaken(s, changes, time, cfg).lastEvent == s.lastEvent
    ensures LevelsTaken(s, changes, time, cfg).crossed == s.crossed
    decreases |changes|
  {
    hide H.Landed, Observed, Matches;
    if changes != [] { LevelsKeepLast(LevelTaken(s, changes[0], time, cfg), changes[1..], time, cfg); }
  }

  lemma InputSpaced(s: EngineState, snapshots: seq<MarketSnapshot>, forced: seq<bool>, input: Input, cfg: EngineConfig)
    requires ValidConfig(cfg) && Spaced(snapshots, forced, cfg) && s.lastSnapshot == LastTime(snapshots)
    ensures var out := Out(s, input, cfg);
      && Spaced(snapshots + out, forced + seq(|out|, i => input.Force?), cfg)
      && Next(s, input, cfg).lastSnapshot == LastTime(snapshots + out)
  {
    hide Taken, Next, Out;
    var out := Out(s, input, cfg);
    OutputShape(s, input, cfg);
    if input.Event? { TakingKeepsLast(s, input.x, cfg); }
    if out == [] {
      assert snapshots + out == snapshots && forced + [] == forced;
    }
  }

  /** Every snapshot that was not forced comes at least the snapshot interval, and at least one
      millisecond, after the one before it, whatever the order of event times. */
  lemma {:induction false} SnapshotsAreSpaced(inputs: seq<Input>, cfg: EngineConfig, n: nat)
    requires ValidConfig(cfg) && n <= |inputs|
    ensures Spaced(Snapshots(FreshEngine, inputs, cfg, n), Forced(inputs, cfg, n), cfg)
    ensures Run(FreshEngine, inputs, cfg, n).lastSnapshot == LastTime(Snapshots(FreshEngine, inputs, cfg, n))
  {
    hide Next, Out, Spaced;
    if n == 0 {
      NothingSpaced(cfg);
    } else {
      SnapshotsAreSpaced(inputs, cfg, n - 1);
      InputSpaced(Run(FreshEngine, inputs, cfg, n - 1), Snapshots(FreshEngine, inputs, cfg, n - 1),
                  Forced(inputs, cfg, n - 1), inputs[n - 1], cfg);
    }
  }

  lemma NothingSpaced(cfg: EngineConfig)
    ensures Spaced([], [], cfg)
  {
  }

  /** Everything that the shadow book displays. */
  ghost function Shown(s: ShadowState): int {
    Displayed(s.bids) + Displayed(s.asks)
  }

  function NetOf(c: LevelChange): int {
    c.newQuantity - Was(c.oldQuantity)
  }

  function NetSum(changes: seq<LevelChange>): int {
    if changes == [] then 0 else NetOf(changes[0]) + NetSum(changes[1..])
  }

  lemma {:induction false} NetConcat(a: seq<LevelChange>, b: seq<LevelChange>)
    ensures NetSum(a + b) == NetSum(a) + NetSum(b)
    decreases |a|
  {
    if a == [] {
      assert a + b == b;
    } else {
      assert (a + b)[1..] == a[1..] + b;
      NetConcat(a[1..], b);
    }
  }

  /** The changes of one side add up to the change of what it displays, also when a price is named
      several times. */
  lemma {:induction false} ChangesAddUp(m: Ladder, levels: seq<Level>, side: BookSide)
    ensures NetSum(Changes(m, levels, side)) == Displayed(Overlay(m, levels)) - Displayed(m)
    decreases |levels|
  {
    hide Displayed, ChangeAt, SetLevel;
    if levels != [] {
      var next := SetLevel(m, levels[0].price, levels[0].quantity);
      ChangesAddUp(next, levels[1..], side);
      NetConcat(ChangeAt(m, levels[0], side), Changes(next, levels[1..], side));
      ChangeNet(m, levels[0], side);
      DisplayedSet(m, levels[0].price, levels[0].quantity);
    }
  }

  lemma ChangeNet(m: Ladder, level: Level, side: BookSide)
    ensures NetSum(ChangeAt(m, level, side)) == level.quantity - Quantity(m, level.price)
  {
    var changes := ChangeAt(m, level, side);
    if changes != [] { assert changes[1..] == []; }
  }

  function Balance(l: LiquidityState): int {
    l.added - l.removed
  }

  lemma ObservedBalance(l: LiquidityState, c: LevelChange, time: nat, window: nat)
    ensures Balance(Observed(l, c, time, window)) == Balance(l) + NetOf(c)
  {
  }

  lemma {:induction false} LevelsBalance(s: EngineState, changes: seq<LevelChange>, time: nat, cfg: EngineConfig)
    requires ValidConfig(cfg)
    ensures Balance(LevelsTaken(s, changes, time, cfg).liquidity) == Balance(s.liquidity) + NetSum(changes)
    decreases |changes|
  {
    hide H.Landed, Observed, Matches, Balance, NetOf;
    if changes != [] {
      ObservedBalance(s.liquidity, changes[0], time, cfg.window);
      LevelsBalance(LevelTaken(s, changes[0], time, cfg), changes[1..], time, cfg);
    }
  }

  function Clears(input: Input): bool {
    input.Event? && (input.x.BookSnapshot? || input.x.ResyncStarted?)
  }

  lemma BookChangeBalances(s: EngineState, id: nat, time: nat, bids: seq<Level>, asks: seq<Level>, cfg: EngineConfig)
    requires ValidConfig(cfg)
    ensures var r := BookChanged(s, id, time, bids, asks, cfg);
      Shown(r.shadow) - Balance(r.liquidity) == Shown(s.shadow) - Balance(s.liquidity)
  {
    hide LevelsTaken, Changes, Overlay, Crossed, Displayed, Balance;
    var changes := Changes(s.shadow.bids, bids, Bid) + Changes(s.shadow.asks, asks, Ask);
    var changed := s.(lastEvent := Some(time), shadow := ShadowUpdate(s.shadow, bids, asks, id));
    LevelsBalance(changed, changes, time, cfg);
    LevelsKeepLast(changed, changes, time, cfg);
    NetConcat(Changes(s.shadow.bids, bids, Bid), Changes(s.shadow.asks, asks, Ask));
    ChangesAddUp(s.shadow.bids, bids, Bid);
    ChangesAddUp(s.shadow.asks, asks, Ask);
  }

  lemma EventBalances(s: EngineState, x: MarketEvent, cfg: EngineConfig)
    requires ValidConfig(cfg) && !Clears(Event(x))
    ensures var r := Taken(s, x, cfg); Shown(r.shadow) - Balance(r.liquidity) == Shown(s.shadow) - Balance(s.liquidity)
  {
    hide BookChanged, TradeTaken, Crossed, Displayed;
    if x.BookUpdated? { BookChangeBalances(s, x.id, x.time, x.bids, x.asks, cfg); }
    if x.TradeEvent? { TradeFrame(s, x.trade, cfg); }
  }

  function NetOfSnapshots(snapshots: seq<MarketSnapshot>): int {
    if snapshots == [] then 0
    else
      NetOfSnapshots(snapshots[..|snapshots| - 1])
      + snapshots[|snapshots| - 1].added - snapshots[|snapshots| - 1].removed
  }

  lemma InputBalances(s: EngineState, snapshots: seq<MarketSnapshot>, base: int, input: Input, cfg: EngineConfig)
    requires ValidConfig(cfg) && !Clears(input)
    requires Shown(s.shadow) - base == NetOfSnapshots(snapshots) + Balance(s.liquidity)
    ensures var r := Next(s, input, cfg);
      Shown(r.shadow) - base == NetOfSnapshots(snapshots + Out(s, input, cfg)) + Balance(r.liquidity)
  {
    hide Taken, Next, Out, Shown;
    var out := Out(s, input, cfg);
    OutputShape(s, input, cfg);
    assert snapshots + [] == snapshots;
    if input.Event? { EventBalances(s, input.x, cfg); }
    if out != [] { assert (snapshots + out)[..|snapshots|] == snapshots; }
  }

  /** From any clear to the next: what the shadow book displays minus what it displayed at the clear
      is added minus removed, over the snapshots since and the current interval. */
  lemma {:induction false} LiquidityIsConserved(s: EngineState, inputs: seq<Input>, cfg: EngineConfig, n: nat)
    requires ValidConfig(cfg) && n <= |inputs|
    requires s.liquidity.added == s.liquidity.removed == 0
    requires forall i | 0 <= i < n :: !Clears(inputs[i])
    ensures var r := Run(s, inputs, cfg, n);
      Shown(r.shadow) - Shown(s.shadow)
      == NetOfSnapshots(Snapshots(s, inputs, cfg, n)) + r.liquidity.added - r.liquidity.removed
  {
    hide Next, Out, Shown;
    if n > 0 {
      LiquidityIsConserved(s, inputs, cfg, n - 1);
      InputBalances(Run(s, inputs, cfg, n - 1), Snapshots(s, inputs, cfg, n - 1), Shown(s.shadow), inputs[n - 1], cfg);
    }
  }

  /** A clear starts such a segment, and takes no snapshot. */
  lemma ClearStartsSegment(s: EngineState, input: Input, cfg: EngineConfig)
    requires ValidConfig(cfg) && Clears(input)
    ensures Next(s, input, cfg).liquidity.added == 0 && Next(s, input, cfg).liquidity.removed == 0
    ensures Out(s, input, cfg) == []
  {
    hide ShadowSnapshot, Crossed, H.From;
  }

  /** Contribution of the trades of a run whose heatmap bucket starts at or after the cutoff. */
  function TradeSum(inputs: seq<Input>, cfg: EngineConfig, n: nat, cutoff: nat, m: H.Measure): int
    requires ValidConfig(cfg) && n <= |inputs|
  {
    if n == 0 then 0 else TradeSum(inputs, cfg, n - 1, cutoff, m) + TradePart(inputs[n - 1], cfg, cutoff, m)
  }

  function TradePart(input: Input, cfg: EngineConfig, cutoff: nat, m: H.Measure): int
    requires ValidConfig(cfg)
  {
    if input.Event? && input.x.TradeEvent? && StartOf(input.x.trade.tradeTime, cfg.cellWidth) >= cutoff
    then B.Contribution(H.Traded(input.x.trade.tradeTime, input.x.trade), m) else 0
  }

  /** Measures that only trades change. */
  predicate OfTrades(m: H.Measure) {
    m == H.Buys || m == H.Sells || m == H.Delta || m == H.Pressure || m == H.Trades
  }

  ghost function Recent(g: H.Grid, cutoff: nat, m: H.Measure): int {
    H.Total(H.From(g, cutoff), m)
  }

  lemma LandedRecent(g: H.Grid, x: H.Feed, cfg: EngineConfig, cutoff: nat, m: H.Measure)
    requires ValidConfig(cfg) && OfTrades(m)
    ensures Recent(H.Landed(g, x, ScaleOf(cfg)), cutoff, m)
         == Recent(g, cutoff, m)
            + if x.Traded? && StartOf(x.time, cfg.cellWidth) >= cutoff then B.Contribution(x, m) else 0
  {
    hide H.Total, H.From, H.Landed;
    B.FromLanded(g, x, ScaleOf(cfg), cutoff);
    B.GridGains(H.From(g, cutoff), x, ScaleOf(cfg), m);
  }

  lemma {:induction false} LevelsRecent(s: EngineState, changes: seq<LevelChange>, time: nat, cfg: EngineConfig,
                                        cutoff: nat, m: H.Measure)
    requires ValidConfig(cfg) && OfTrades(m)
    ensures Recent(LevelsTaken(s, changes, time, cfg).grid, cutoff, m) == Recent(s.grid, cutoff, m)
    decreases |changes|
  {
    hide H.Landed, Recent, Observed, Matches;
    if changes != [] {
      var c := changes[0];
      var shown := H.Landed(s.grid, H.Shown(time, c), ScaleOf(cfg));
      LandedRecent(s.grid, H.Shown(time, c), cfg, cutoff, m);
      LandedRecent(shown, H.Refilled(time, c.price), cfg, cutoff, m);
      LevelsRecent(LevelTaken(s, c, time, cfg), changes[1..], time, cfg, cutoff, m);
    }
  }

  lemma TradeRecent(s: EngineState, t: Trade, cfg: EngineConfig, cutoff: nat, m: H.Measure)
    requires ValidConfig(cfg) && OfTrades(m)
    ensures Recent(TradeTaken(s, t, cfg).grid, cutoff, m)
         == Recent(s.grid, cutoff, m) + TradePart(Event(TradeEvent(t)), cfg, cutoff, m)
  {
    hide H.Landed, Recent, AsksAbsorption, SweepBy, B.Contribution, A.Asked, A.Found, FlowAfter;
    hide LargeAfter;
    hide OpposingDepth, BestFor, C.Joined, C.Closes;
    var flow := FlowTaken(s, t, cfg);
    var large := LargeChecked(flow, t, cfg);
    var clustered := Clustered(large, t, cfg);
    LandedRecent(s.grid, H.Traded(t.tradeTime, t), cfg, cutoff, m);
    LandedRecent(flow.grid, H.LargeTraded(t.tradeTime, t), cfg, cutoff, m);
    var sweep := SweepBy(large, t, cfg);
    if sweep.Some? { LandedRecent(large.grid, H.Swept(sweep.value.end, sweep.value.lastPrice), cfg, cutoff, m); }
    var found := A.Found(clustered.absorption, t, cfg.absorption);
    if found.Some? {
      LandedRecent(clustered.grid, H.Absorbed(found.value.window.closeAt, found.value.window.price), cfg, cutoff, m);
    }
  }

  lemma EventRecent(s: EngineState, x: MarketEvent, cfg: EngineConfig, cutoff: nat, m: H.Measure)
    requires ValidConfig(cfg) && OfTrades(m)
    ensures Recent(Taken(s, x, cfg).grid, cutoff, m) == Recent(s.grid, cutoff, m) + TradePart(Event(x), cfg, cutoff, m)
  {
    hide Recent, TradeTaken, LevelsTaken, Changes, Overlay, Crossed, B.Contribution, ShadowSnapshot;
    match x {
      case BookUpdated(id, time, bids, asks) =>
        var changes := Changes(s.shadow.bids, bids, Bid) + Changes(s.shadow.asks, asks, Ask);
        LevelsRecent(s.(lastEvent := Some(time), shadow := ShadowUpdate(s.shadow, bids, asks, id)), changes, time, cfg,
                     cutoff, m);
      case TradeEvent(t) => TradeRecent(s, t, cfg, cutoff, m);
      case _ =>
    }
  }

  /** Event times of trades and book updates do not decrease. */
  ghost predicate TimesInOrder(inputs: seq<Input>) {
    forall i, j | 0 <= i < j < |inputs| && HasTime(inputs[i]) && HasTime(inputs[j]) ::
      TimeOf(inputs[i]) <= TimeOf(inputs[j])
  }

  predicate HasTime(input: Input) {
    input.Event? && SnapshotTime(input.x).Some?
  }

  function TimeOf(input: Input): nat
    requires HasTime(input)
  {
    SnapshotTime(input.x).value
  }

  /** Time of the latest trade or book update. */
  function Latest(inputs: seq<Input>, n: nat): nat
    requires n <= |inputs|
  {
    if n == 0 then 0 else if HasTime(inputs[n - 1]) then TimeOf(inputs[n - 1]) else Latest(inputs, n - 1)
  }

  lemma {:induction false} LatestBounds(inputs: seq<Input>, n: nat, i: nat)
    requires TimesInOrder(inputs) && n <= |inputs| && i < |inputs| && n <= i && HasTime(inputs[i])
    ensures Latest(inputs, n) <= TimeOf(inputs[i])
  {
    if n > 0 { LatestBounds(inputs, n - 1, i); }
  }

  lemma NextEvent(s: EngineState, input: Input, cfg: EngineConfig)
    requires ValidConfig(cfg)
    ensures Next(s, input, cfg).lastEvent == if HasTime(input) then Some(TimeOf(input)) else s.lastEvent
  {
    hide Taken, H.From, Liquidity.Pruned, Due;
    if input.Event? { TakingKeepsLast(s, input.x, cfg); }
  }

  lemma {:induction false} LastEventIsLatest(inputs: seq<Input>, cfg: EngineConfig, n: nat)
    requires ValidConfig(cfg) && n <= |inputs|
    ensures var last := Run(FreshEngine, inputs, cfg, n).lastEvent;
      (if last.Some? then last.value else 0) == Latest(inputs, n)
  {
    hide Next;
    if n > 0 {
      LastEventIsLatest(inputs, cfg, n - 1);
      NextEvent(Run(FreshEngine, inputs, cfg, n - 1), inputs[n - 1], cfg);
    }
  }

  /** An event prunes the heatmap at the latest time it knows. */
  lemma InputGrid(s: EngineState, input: Input, cfg: EngineConfig)
    requires ValidConfig(cfg)
    ensures var now := if Next(s, input, cfg).lastEvent.Some? then Next(s, input, cfg).lastEvent.value else 0;
      Next(s, input, cfg).grid
      == if input.Event? then H.From(Taken(s, input.x, cfg).grid, Saturating(now, cfg.retention)) else s.grid
  {
    hide H.From, Saturating, Liquidity.Pruned;
    NextEvent(s, input, cfg);
    if input.Event? && HasTime(input) {
      assert Next(s, input, cfg).lastEvent == SnapshotTime(input.x);
    }
  }

  lemma {:induction false} RecentIsTradeSum(inputs: seq<Input>, cfg: EngineConfig, n: nat, cutoff: nat, m: H.Measure)
    requires ValidConfig(cfg) && n <= |inputs| && TimesInOrder(inputs) && OfTrades(m)
    requires cutoff >= Saturating(Latest(inputs, n), cfg.retention)
    ensures Recent(Run(FreshEngine, inputs, cfg, n).grid, cutoff, m) == TradeSum(inputs, cfg, n, cutoff, m)
  {
    hide Next, Taken, H.From, H.Total, TradePart;
    if n == 0 {
      B.EmptyFrom(cutoff);
      H.NothingTotal();
    } else {
      if HasTime(inputs[n - 1]) { LatestBounds(inputs, n - 1, n - 1); }
      RecentIsTradeSum(inputs, cfg, n - 1, cutoff, m);
      var s, input := Run(FreshEngine, inputs, cfg, n - 1), inputs[n - 1];
      InputGrid(s, input, cfg);
      LastEventIsLatest(inputs, cfg, n);
      if input.Event? {
        EventRecent(s, input.x, cfg, cutoff, m);
        B.FromFrom(Taken(s, input.x, cfg).grid, Saturating(Latest(inputs, n), cfg.retention), cutoff);
      } else {
        ForcePart(input, cfg, cutoff, m);
      }
    }
  }

  lemma ForcePart(input: Input, cfg: EngineConfig, cutoff: nat, m: H.Measure)
    requires ValidConfig(cfg) && input.Force?
    ensures TradePart(input, cfg, cutoff, m) == 0
  {
  }

  /** After every event of a run with nondecreasing times, executed volume, delta, pressure and trade
      count in the heatmap digest are those of exactly the trades whose bucket is retained. */
  lemma HeatmapHoldsRetainedTrades(inputs: seq<Input>, cfg: EngineConfig, m: H.Measure)
    requires ValidConfig(cfg) && TimesInOrder(inputs) && OfTrades(m)
    requires inputs != [] && inputs[|inputs| - 1].Event?
    ensures H.Total(Run(FreshEngine, inputs, cfg, |inputs|).grid, m)
         == TradeSum(inputs, cfg, |inputs|, Saturating(Latest(inputs, |inputs|), cfg.retention), m)
  {
    hide Next, Taken, H.From, H.Total, TradeSum;
    var n := |inputs|;
    var s, input := Run(FreshEngine, inputs, cfg, n - 1), inputs[n - 1];
    var cutoff := Saturating(Latest(inputs, n), cfg.retention);
    InputGrid(s, input, cfg);
    LastEventIsLatest(inputs, cfg, n);
    RecentIsTradeSum(inputs, cfg, n, cutoff, m);
    B.FromFrom(Taken(s, input.x, cfg).grid, cutoff, cutoff);
  }
}
