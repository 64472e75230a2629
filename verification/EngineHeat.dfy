/** Over whole runs the heatmap and the liquidity tracker of the engine are those of the changes and trades that
    its events bring. */
module EngineHeat {
  import opened Engine
  import opened EngineSnapshots
  import opened HeatmapCells
  import opened Liquidity
  import opened Options
  import opened OrderBooks
  import opened Shadow
  import opened Wire
  import A = Absorption
  import B = HeatmapBatches
  import C = Clusters
  import H = Heatmaps
  import R = EngineRuns

  /** The level changes of a book update. */
  function ChangesOf(s: ShadowState, bids: seq<Level>, asks: seq<Level>): seq<LevelChange> {
    Changes(s.bids, bids, Bid) + Changes(s.asks, asks, Ask)
  }

  /** Every change is shown in the heatmap, and marked if the tracker reports a replenishment. */
  function HeatOfLevels(l: LiquidityState, changes: seq<LevelChange>, time: nat, cfg: EngineConfig): seq<B.Signal>
    decreases |changes|
  {
    if changes == [] then []
    else
      var c := changes[0];
      [B.Fed(H.Shown(time, c))]
      + (if |Emitted(l, c, time, cfg.window)| > 1 then [B.Fed(H.Refilled(time, c.price))] else [])
      + HeatOfLevels(Observed(l, c, time, cfg.window), changes[1..], time, cfg)
  }

  /** Every trade is shown, and again if it is large, ends a cluster that is a sweep, or ends an absorption. */
  function HeatOfTrade(s: EngineState, t: Trade, cfg: EngineConfig): seq<B.Signal>
    requires ValidConfig(cfg)
  {
    var sweep := SweepBy(s, t, cfg);
    var found := if AsksAbsorption(s, t) then A.Found(s.absorption, t, cfg.absorption) else None;
    [B.Fed(H.Traded(t.tradeTime, t))]
    + (if t.quantity >= cfg.largeThreshold then [B.Fed(H.LargeTraded(t.tradeTime, t))] else [])
    + (if sweep.Some? then [B.Fed(H.Swept(sweep.value.end, sweep.value.lastPrice))] else [])
    + (if found.Some? then [B.Fed(H.Absorbed(found.value.window.closeAt, found.value.window.price))] else [])
  }

  function HeatOfEvent(s: EngineState, x: MarketEvent, cfg: EngineConfig): seq<B.Signal>
    requires ValidConfig(cfg)
  {
    match x
    case TradeEvent(t) => HeatOfTrade(s, t, cfg)
    case BookUpdated(_, time, bids, asks) =>
      HeatOfLevels(s.liquidity, ChangesOf(s.shadow, bids, asks), time, cfg)
    case _ => []
  }

  /** The time at which the engine prunes after input `n`: that of the latest event with a time. */
  function NowAt(inputs: seq<R.Input>, n: nat): nat
    requires n < |inputs|
  {
    var clock := LastClock(inputs, n + 1);
    if clock.Some? then clock.value else 0
  }

  /** All that the heatmap is fed in a run. */
  function HeatOf(inputs: seq<R.Input>, cfg: EngineConfig, n: nat): seq<B.Signal>
    requires ValidConfig(cfg) && n <= |inputs|
  {
    if n == 0 then []
    else
      HeatOf(inputs, cfg, n - 1)
      + match inputs[n - 1]
        case Event(x) =>
          HeatOfEvent(R.Run(FreshEngine, inputs, cfg, n - 1), x, cfg) + [B.PruneDue(NowAt(inputs, n - 1))]
        case Force => []
  }

  function HeatSettings(cfg: EngineConfig): B.Settings {
    B.Settings(H.Scale(cfg.cellWidth, 1), cfg.retention)
  }

  /** The heatmap that a list of signals leads to from a given one. */
  function Heated(g: H.Grid, signals: seq<B.Signal>, cfg: EngineConfig): H.Grid
    requires ValidConfig(cfg)
  {
    if signals == [] then g
    else B.Next(Heated(g, signals[..|signals| - 1], cfg), signals[|signals| - 1], HeatSettings(cfg))
  }

  lemma {:induction false} HeatedConcat(g: H.Grid, a: seq<B.Signal>, b: seq<B.Signal>, cfg: EngineConfig)
    requires ValidConfig(cfg)
    ensures Heated(g, a + b, cfg) == Heated(Heated(g, a, cfg), b, cfg)
    decreases |b|
  {
    hide B.Next;
    if b == [] {
      assert a + b == a;
    } else {
      assert (a + b)[..|a + b| - 1] == a + b[..|b| - 1];
      HeatedConcat(g, a, b[..|b| - 1], cfg);
    }
  }

  lemma HeatedOne(g: H.Grid, x: B.Signal, cfg: EngineConfig)
    requires ValidConfig(cfg)
    ensures Heated(g, [x], cfg) == B.Next(g, x, HeatSettings(cfg))
  {
    hide B.Next;
    assert [x][..0] == [];
  }

  lemma {:induction false} HeatedIsStreamed(signals: seq<B.Signal>, cfg: EngineConfig, n: nat)
    requires ValidConfig(cfg) && n <= |signals|
    ensures B.Streamed(signals, HeatSettings(cfg), n) == Heated(map[], signals[..n], cfg)
  {
    hide B.Next;
    if n > 0 {
      HeatedIsStreamed(signals, cfg, n - 1);
      assert signals[..n][..n - 1] == signals[..n - 1];
    }
  }

  lemma {:induction false} LevelsHeated(s: EngineState, changes: seq<LevelChange>, time: nat, cfg: EngineConfig)
    requires ValidConfig(cfg)
    ensures LevelsTaken(s, changes, time, cfg).grid
         == Heated(s.grid, HeatOfLevels(s.liquidity, changes, time, cfg), cfg)
    decreases |changes|
  {
    hide LevelTaken, Heated;
    if changes == [] {
      NothingHeated(s.grid, cfg);
    } else {
      var c, next := changes[0], LevelTaken(s, changes[0], time, cfg);
      LevelHeated(s, c, time, cfg);
      LevelsHeated(next, changes[1..], time, cfg);
      var first := [B.Fed(H.Shown(time, c))]
        + (if |Emitted(s.liquidity, c, time, cfg.window)| > 1 then [B.Fed(H.Refilled(time, c.price))] else []);
      HeatedConcat(s.grid, first, HeatOfLevels(next.liquidity, changes[1..], time, cfg), cfg);
    }
  }

  lemma NothingHeated(g: H.Grid, cfg: EngineConfig)
    requires ValidConfig(cfg)
    ensures Heated(g, [], cfg) == g
  {
  }

  lemma LevelHeated(s: EngineState, c: LevelChange, time: nat, cfg: EngineConfig)
    requires ValidConfig(cfg)
    ensures LevelTaken(s, c, time, cfg).liquidity == Observed(s.liquidity, c, time, cfg.window)
    ensures LevelTaken(s, c, time, cfg).grid
         == Heated(s.grid, [B.Fed(H.Shown(time, c))]
                           + (if |Emitted(s.liquidity, c, time, cfg.window)| > 1
                              then [B.Fed(H.Refilled(time, c.price))] else []), cfg)
  {
    hide H.Landed, WindowsAfter, Observed;
    var shown, refilled := B.Fed(H.Shown(time, c)), B.Fed(H.Refilled(time, c.price));
    HeatedOne(s.grid, shown, cfg);
    HeatedOne(Heated(s.grid, [shown], cfg), refilled, cfg);
    HeatedConcat(s.grid, [shown], [refilled], cfg);
    assert [shown] + [] == [shown];
    MatchesEmits(s.liquidity, c, time, cfg.window);
    hide Heated, Matches;
  }

  lemma MatchesEmits(l: LiquidityState, c: LevelChange, time: nat, window: nat)
    ensures |Emitted(l, c, time, window)| > 1 <==> Matches(l, c, time, window)
  {
    hide FirstUnexpired, Queue;
  }

  lemma TradeHeated(s: EngineState, t: Trade, cfg: EngineConfig)
    requires ValidConfig(cfg)
    ensures TradeTaken(s, t, cfg).grid == Heated(s.grid, HeatOfTrade(s, t, cfg), cfg)
  {
    var a := FlowTaken(s, t, cfg);
    var b := LargeChecked(a, t, cfg);
    var c := Clustered(b, t, cfg);
    SameParts(s, t, cfg);
    var traded := [B.Fed(H.Traded(t.tradeTime, t))];
    var large := if t.quantity >= cfg.largeThreshold then [B.Fed(H.LargeTraded(t.tradeTime, t))] else [];
    var sweep := SweepBy(s, t, cfg);
    var swept := if sweep.Some? then [B.Fed(H.Swept(sweep.value.end, sweep.value.lastPrice))] else [];
    var found := if AsksAbsorption(s, t) then A.Found(s.absorption, t, cfg.absorption) else None;
    var absorbed :=
      if found.Some? then [B.Fed(H.Absorbed(found.value.window.closeAt, found.value.window.price))] else [];
    GridOfTrade(s, t, cfg);
    GridOfLarge(a, t, cfg);
    GridOfCluster(b, t, cfg);
    GridOfAbsorption(c, t, cfg);
    hide Heated, FlowTaken, LargeChecked, Clustered, AbsorptionChecked, SweepBy, AsksAbsorption, A.Found;
    HeatedConcat(s.grid, traded, large, cfg);
    HeatedConcat(s.grid, traded + large, swept, cfg);
    HeatedConcat(s.grid, traded + large + swept, absorbed, cfg);
  }

  /** What decides about sweeps and absorption is not touched on the way. */
  lemma SameParts(s: EngineState, t: Trade, cfg: EngineConfig)
    requires ValidConfig(cfg)
    ensures var b := LargeChecked(FlowTaken(s, t, cfg), t, cfg);
      && b.open == s.open && Clustered(b, t, cfg).absorption == s.absorption
      && Clustered(b, t, cfg).shadow == s.shadow
    ensures SweepBy(LargeChecked(FlowTaken(s, t, cfg), t, cfg), t, cfg) == SweepBy(s, t, cfg)
  {
    hide H.Landed, C.Closes, C.Joined;
  }

  lemma GridOfTrade(s: EngineState, t: Trade, cfg: EngineConfig)
    requires ValidConfig(cfg)
    ensures FlowTaken(s, t, cfg).grid == Heated(s.grid, [B.Fed(H.Traded(t.tradeTime, t))], cfg)
  {
    hide H.Landed;
    HeatedOne(s.grid, B.Fed(H.Traded(t.tradeTime, t)), cfg);
  }

  lemma GridOfLarge(s: EngineState, t: Trade, cfg: EngineConfig)
    requires ValidConfig(cfg)
    ensures LargeChecked(s, t, cfg).grid
         == Heated(s.grid, if t.quantity >= cfg.largeThreshold then [B.Fed(H.LargeTraded(t.tradeTime, t))] else [], cfg)
  {
    hide H.Landed;
    HeatedOne(s.grid, B.Fed(H.LargeTraded(t.tradeTime, t)), cfg);
  }

  lemma GridOfCluster(s: EngineState, t: Trade, cfg: EngineConfig)
    requires ValidConfig(cfg)
    ensures var sweep := SweepBy(s, t, cfg);
      Clustered(s, t, cfg).grid
      == Heated(s.grid, if sweep.Some? then [B.Fed(H.Swept(sweep.value.end, sweep.value.lastPrice))] else [], cfg)
  {
    hide H.Landed, C.Closes, C.Joined;
    var sweep := SweepBy(s, t, cfg);
    hide SweepBy;
    if sweep.Some? { HeatedOne(s.grid, B.Fed(H.Swept(sweep.value.end, sweep.value.lastPrice)), cfg); }
  }

  lemma GridOfAbsorption(s: EngineState, t: Trade, cfg: EngineConfig)
    requires ValidConfig(cfg)
    ensures var found := if AsksAbsorption(s, t) then A.Found(s.absorption, t, cfg.absorption) else None;
      AbsorptionChecked(s, t, cfg).grid
      == Heated(s.grid, if found.Some?
                        then [B.Fed(H.Absorbed(found.value.window.closeAt, found.value.window.price))] else [], cfg)
  {
    hide H.Landed, AsksAbsorption, A.Asked, A.Found, BestFor, OpposingDepth;
    var found := A.Found(s.absorption, t, cfg.absorption);
    if found.Some? {
      HeatedOne(s.grid, B.Fed(H.Absorbed(found.value.window.closeAt, found.value.window.price)), cfg);
    }
  }

  lemma EventHeated(s: EngineState, x: MarketEvent, cfg: EngineConfig)
    requires ValidConfig(cfg)
    ensures Taken(s, x, cfg).grid == Heated(s.grid, HeatOfEvent(s, x, cfg), cfg)
  {
    hide Heated, TradeTaken, LevelsTaken, Crossed, HeatOfTrade, Changes, Overlay, ShadowSnapshot;
    match x {
      case TradeEvent(t) => TradeHeated(s, t, cfg);
      case BookUpdated(id, time, bids, asks) =>
        var changes := ChangesOf(s.shadow, bids, asks);
        LevelsHeated(s.(lastEvent := Some(time), shadow := ShadowUpdate(s.shadow, bids, asks, id)), changes, time, cfg);
      case _ => NothingHeated(s.grid, cfg);
    }
  }

  lemma PrunedHeat(s: EngineState, x: MarketEvent, cfg: EngineConfig, now: nat)
    requires ValidConfig(cfg) && now == PruneTime(Taken(s, x, cfg), x)
    ensures Processed(s, x, cfg).grid == B.Next(Taken(s, x, cfg).grid, B.PruneDue(now), HeatSettings(cfg))
  {
    hide Taken, Due, H.From, Liquidity.Pruned;
  }

  lemma PruneTimeIsNow(inputs: seq<R.Input>, cfg: EngineConfig, n: nat)
    requires ValidConfig(cfg) && n < |inputs| && inputs[n].Event?
    ensures var s := R.Run(FreshEngine, inputs, cfg, n);
      PruneTime(Taken(s, inputs[n].x, cfg), inputs[n].x) == NowAt(inputs, n)
  {
    hide Taken, R.Run;
    LastEventIsClock(inputs, cfg, n);
    R.TakingKeepsLast(R.Run(FreshEngine, inputs, cfg, n), inputs[n].x, cfg);
  }

  lemma {:induction false} GridIsHeated(inputs: seq<R.Input>, cfg: EngineConfig, n: nat)
    requires ValidConfig(cfg) && n <= |inputs|
    ensures R.Run(FreshEngine, inputs, cfg, n).grid == Heated(map[], HeatOf(inputs, cfg, n), cfg)
  {
    hide Heated, Processed, HeatOfEvent, B.Next, NowAt;
    if n == 0 {
      NothingHeated(map[], cfg);
    } else {
      GridIsHeated(inputs, cfg, n - 1);
      var s, input, heat := R.Run(FreshEngine, inputs, cfg, n - 1), inputs[n - 1], HeatOf(inputs, cfg, n - 1);
      if input.Event? {
        var x, now := input.x, NowAt(inputs, n - 1);
        EventHeated(s, x, cfg);
        PruneTimeIsNow(inputs, cfg, n - 1);
        PrunedHeat(s, x, cfg, now);
        HeatedOne(Taken(s, x, cfg).grid, B.PruneDue(now), cfg);
        HeatedConcat(s.grid, HeatOfEvent(s, x, cfg), [B.PruneDue(now)], cfg);
        HeatedConcat(map[], heat, HeatOfEvent(s, x, cfg) + [B.PruneDue(now)], cfg);
      } else {
        assert heat + [] == heat;
      }
    }
  }

  /** Over every run the heatmap of the engine is the streamed one of everything that it was fed, so that each of its
      cells tells what landed there. */
  lemma EngineHeatmapIsStreamed(inputs: seq<R.Input>, cfg: EngineConfig, n: nat)
    requires ValidConfig(cfg) && n <= |inputs|
    ensures var heat := HeatOf(inputs, cfg, n);
      R.Run(FreshEngine, inputs, cfg, n).grid == B.Streamed(heat, HeatSettings(cfg), |heat|)
  {
    hide R.Run, HeatOf, Heated, B.Streamed;
    var heat := HeatOf(inputs, cfg, n);
    GridIsHeated(inputs, cfg, n);
    HeatedIsStreamed(heat, cfg, |heat|);
    assert heat[..|heat|] == heat;
  }

  /** So each of its cells tells exactly what landed there since its bucket was pruned. */
  lemma EngineCellsTell(inputs: seq<R.Input>, cfg: EngineConfig, n: nat, start: nat, price: nat)
    requires ValidConfig(cfg) && n <= |inputs|
    ensures var heat := HeatOf(inputs, cfg, n);
      CellTells(R.Run(FreshEngine, inputs, cfg, n).grid, Landing(heat, HeatSettings(cfg), |heat|, start, price), start,
                price)
  {
    hide R.Run, HeatOf, CellTells, Landing, B.Streamed;
    EngineHeatmapIsStreamed(inputs, cfg, n);
    var heat := HeatOf(inputs, cfg, n);
    CellsTellEvents(heat, HeatSettings(cfg), |heat|, start, price);
  }
}
