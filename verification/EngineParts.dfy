/** Over whole runs the liquidity tracker, the clusters and the absorption windows of the engine are those of the
    changes and trades that its events bring. */
module EngineParts {
  import opened Engine
  import opened EngineHeat
  import opened Flow
  import opened Liquidity
  import opened Options
  import opened OrderBooks
  import opened Shadow
  import opened Wire
  import A = Absorption
  import C = Clusters
  import CR = ClusterRuns
  import H = Heatmaps
  import L = Replenishment
  import R = EngineRuns

  function EachChanged(changes: seq<LevelChange>, time: nat): seq<L.Signal>
    decreases |changes|
  {
    if changes == [] then [] else [L.Changed(time, changes[0])] + EachChanged(changes[1..], time)
  }

  /** What the liquidity tracker hears of one input: the changes of a book update, the loss of the book, the end of
      the interval if there is a snapshot, and the prune. */
  function LevelsHeard(s: EngineState, input: R.Input, now: nat, cfg: EngineConfig): seq<L.Signal>
    requires ValidConfig(cfg)
  {
    var ended := if R.Out(s, input, cfg) != [] then [L.IntervalEnded(now)] else [];
    match input
    case Force => ended
    case Event(x) =>
      (match x
       case BookUpdated(_, time, bids, asks) => EachChanged(ChangesOf(s.shadow, bids, asks), time)
       case BookSnapshot(_, _, _) => [L.BookRebuilt(now)]
       case ResyncStarted => [L.BookRebuilt(now)]
       case _ => [])
      + ended + [L.PruneDue(now)]
  }

  function TrackerSettings(cfg: EngineConfig): L.Settings {
    L.Settings(cfg.window, cfg.retention, true)
  }

  function LevelsHeardIn(inputs: seq<R.Input>, cfg: EngineConfig, n: nat): seq<L.Signal>
    requires ValidConfig(cfg) && n <= |inputs|
  {
    if n == 0 then []
    else
      LevelsHeardIn(inputs, cfg, n - 1)
      + LevelsHeard(R.Run(FreshEngine, inputs, cfg, n - 1), inputs[n - 1], NowAt(inputs, n - 1), cfg)
  }

  function Followed(s: LiquidityState, signals: seq<L.Signal>, cfg: EngineConfig): LiquidityState {
    if signals == [] then s
    else L.Next(Followed(s, signals[..|signals| - 1], cfg), signals[|signals| - 1], TrackerSettings(cfg))
  }

  lemma {:induction false} FollowedConcat(s: LiquidityState, a: seq<L.Signal>, b: seq<L.Signal>, cfg: EngineConfig)
    ensures Followed(s, a + b, cfg) == Followed(Followed(s, a, cfg), b, cfg)
    decreases |b|
  {
    hide L.Next;
    if b == [] {
      assert a + b == a;
    } else {
      assert (a + b)[..|a + b| - 1] == a + b[..|b| - 1];
      FollowedConcat(s, a, b[..|b| - 1], cfg);
    }
  }

  lemma FollowedOne(s: LiquidityState, x: L.Signal, cfg: EngineConfig)
    ensures Followed(s, [x], cfg) == L.Next(s, x, TrackerSettings(cfg)) && Followed(s, [], cfg) == s
  {
    hide L.Next;
    assert [x][..0] == [];
  }

  lemma {:induction false} FollowedIsTracked(signals: seq<L.Signal>, cfg: EngineConfig, n: nat)
    requires n <= |signals|
    ensures L.Tracked(NoLiquidity, signals, TrackerSettings(cfg), n) == Followed(NoLiquidity, signals[..n], cfg)
  {
    hide L.Next;
    if n > 0 {
      FollowedIsTracked(signals, cfg, n - 1);
      assert signals[..n][..n - 1] == signals[..n - 1];
    }
  }

  lemma {:induction false} ChangesFollowed(s: EngineState, changes: seq<LevelChange>, time: nat, cfg: EngineConfig)
    requires ValidConfig(cfg)
    ensures LevelsTaken(s, changes, time, cfg).liquidity == Followed(s.liquidity, EachChanged(changes, time), cfg)
    decreases |changes|
  {
    hide LevelTaken, Followed, Observed;
    if changes == [] {
      FollowedOne(s.liquidity, L.PruneDue(0), cfg);
    } else {
      var next := LevelTaken(s, changes[0], time, cfg);
      LevelHeated(s, changes[0], time, cfg);
      ChangesFollowed(next, changes[1..], time, cfg);
      FollowedOne(s.liquidity, L.Changed(time, changes[0]), cfg);
      FollowedConcat(s.liquidity, [L.Changed(time, changes[0])], EachChanged(changes[1..], time), cfg);
    }
  }

  /** Before the snapshot and the prune. */
  function Heard(s: EngineState, x: MarketEvent, now: nat): seq<L.Signal> {
    match x
    case BookUpdated(_, time, bids, asks) => EachChanged(ChangesOf(s.shadow, bids, asks), time)
    case BookSnapshot(_, _, _) => [L.BookRebuilt(now)]
    case ResyncStarted => [L.BookRebuilt(now)]
    case _ => []
  }

  lemma TakenFollowed(s: EngineState, x: MarketEvent, now: nat, cfg: EngineConfig)
    requires ValidConfig(cfg)
    ensures Taken(s, x, cfg).liquidity == Followed(s.liquidity, Heard(s, x, now), cfg)
  {
    hide Followed, TradeTaken, LevelsTaken, Crossed, Changes, Overlay, ShadowSnapshot, EachChanged;
    FollowedOne(s.liquidity, L.BookRebuilt(now), cfg);
    match x {
      case TradeEvent(t) => R.TradeFrame(s, t, cfg);
      case BookUpdated(id, time, bids, asks) =>
        ChangesFollowed(s.(lastEvent := Some(time), shadow := ShadowUpdate(s.shadow, bids, asks, id)),
                        ChangesOf(s.shadow, bids, asks), time, cfg);
      case _ =>
    }
  }

  lemma SettledLiquidity(s: EngineState, x: MarketEvent, now: nat, cfg: EngineConfig)
    requires ValidConfig(cfg) && now == PruneTime(Taken(s, x, cfg), x)
    ensures var l := Taken(s, x, cfg).liquidity;
      var ended := if Finalized(s, x, cfg) != [] then l.(added := 0, removed := 0) else l;
      Processed(s, x, cfg).liquidity == Liquidity.Pruned(ended, now, cfg.window, cfg.retention)
  {
    hide Taken, Due, H.From, Liquidity.Pruned, SnapshotAt;
  }

  lemma InputFollowed(s: EngineState, input: R.Input, now: nat, cfg: EngineConfig)
    requires ValidConfig(cfg) && (input.Event? ==> now == PruneTime(Taken(s, input.x, cfg), input.x))
    ensures R.Next(s, input, cfg).liquidity == Followed(s.liquidity, LevelsHeard(s, input, now, cfg), cfg)
  {
    hide Followed, Taken, Processed, Finalized, Liquidity.Pruned, EachChanged, SnapshotAt;
    var ended := if R.Out(s, input, cfg) != [] then [L.IntervalEnded(now)] else [];
    var l := if input.Event? then Followed(s.liquidity, Heard(s, input.x, now), cfg) else s.liquidity;
    FollowedOne(l, L.IntervalEnded(now), cfg);
    if input.Event? {
      var heard := Heard(s, input.x, now);
      TakenFollowed(s, input.x, now, cfg);
      SettledLiquidity(s, input.x, now, cfg);
      FollowedConcat(s.liquidity, heard, ended, cfg);
      FollowedOne(Followed(l, ended, cfg), L.PruneDue(now), cfg);
      FollowedConcat(s.liquidity, heard + ended, [L.PruneDue(now)], cfg);
      assert LevelsHeard(s, input, now, cfg) == heard + ended + [L.PruneDue(now)];
    }
  }

  lemma {:induction false} LiquidityIsFollowed(inputs: seq<R.Input>, cfg: EngineConfig, n: nat)
    requires ValidConfig(cfg) && n <= |inputs|
    ensures R.Run(FreshEngine, inputs, cfg, n).liquidity == Followed(NoLiquidity, LevelsHeardIn(inputs, cfg, n), cfg)
  {
    hide Followed, R.Next, LevelsHeard, NowAt;
    if n == 0 {
      FollowedOne(NoLiquidity, L.PruneDue(0), cfg);
    } else {
      LiquidityIsFollowed(inputs, cfg, n - 1);
      var s, now := R.Run(FreshEngine, inputs, cfg, n - 1), NowAt(inputs, n - 1);
      if inputs[n - 1].Event? { PruneTimeIsNow(inputs, cfg, n - 1); }
      InputFollowed(s, inputs[n - 1], now, cfg);
      FollowedConcat(NoLiquidity, LevelsHeardIn(inputs, cfg, n - 1), LevelsHeard(s, inputs[n - 1], now, cfg), cfg);
    }
  }

  /** Over every run the tracker of the engine is the one that heard exactly these signals. */
  lemma EngineLiquidityIsTracked(inputs: seq<R.Input>, cfg: EngineConfig, n: nat)
    requires ValidConfig(cfg) && n <= |inputs|
    ensures var heard := LevelsHeardIn(inputs, cfg, n);
      R.Run(FreshEngine, inputs, cfg, n).liquidity == L.Tracked(NoLiquidity, heard, TrackerSettings(cfg), |heard|)
  {
    hide R.Run, LevelsHeardIn, Followed, L.Tracked;
    var heard := LevelsHeardIn(inputs, cfg, n);
    LiquidityIsFollowed(inputs, cfg, n);
    FollowedIsTracked(heard, cfg, |heard|);
    assert heard[..|heard|] == heard;
  }

  /** What the cluster tracker hears: every trade, and the prune after every event. */
  function ClustersHeardIn(inputs: seq<R.Input>, n: nat): seq<CR.Signal>
    requires n <= |inputs|
  {
    if n == 0 then []
    else
      ClustersHeardIn(inputs, n - 1)
      + match inputs[n - 1]
        case Force => []
        case Event(x) =>
          (if x.TradeEvent? then [CR.Traded(x.trade)] else []) + [CR.PruneDue(NowAt(inputs, n - 1))]
  }

  lemma {:induction false} ClustersPrefix(a: seq<CR.Signal>, b: seq<CR.Signal>, cfg: CR.Settings, n: nat)
    requires n <= |a|
    ensures CR.Tracked(a + b, cfg, n) == CR.Tracked(a, cfg, n)
  {
    hide CR.Next;
    if n > 0 { ClustersPrefix(a, b, cfg, n - 1); }
  }

  lemma ClustersOneMore(a: seq<CR.Signal>, x: CR.Signal, cfg: CR.Settings)
    ensures CR.Tracked(a + [x], cfg, |a| + 1) == CR.Next(CR.Tracked(a, cfg, |a|), x, cfg)
  {
    hide CR.Next;
    ClustersPrefix(a, [x], cfg, |a|);
  }

  lemma ClusterStep(s: EngineState, x: MarketEvent, now: nat, cfg: EngineConfig)
    requires ValidConfig(cfg) && now == PruneTime(Taken(s, x, cfg), x)
    ensures var settings, t := CR.Settings(cfg.proximity, cfg.retention), CR.Tracker(s.open, s.closed);
      var traded := if x.TradeEvent? then CR.Next(t, CR.Traded(x.trade), settings) else t;
      CR.Tracker(Processed(s, x, cfg).open, Processed(s, x, cfg).closed) == CR.Next(traded, CR.PruneDue(now), settings)
  {
    ClustersTaken(s, x, cfg);
    hide Taken, Due, H.From, Liquidity.Pruned, C.Expired, C.Joined, C.Closes, Retained;
  }

  lemma ClustersTaken(s: EngineState, x: MarketEvent, cfg: EngineConfig)
    requires ValidConfig(cfg)
    ensures var r := Taken(s, x, cfg);
      if x.TradeEvent? then
        && r.open == Some(C.Joined(s.open, x.trade, cfg.proximity))
        && r.closed == if C.Closes(s.open, x.trade, cfg.proximity) then s.closed + [s.open.value] else s.closed
      else r.open == s.open && r.closed == s.closed
  {
    hide H.Landed, C.Joined, C.Closes, A.Asked, A.Found, AsksAbsorption, BestFor, OpposingDepth, Changes, Overlay;
    hide LevelsTaken, Crossed, ShadowSnapshot, SweepBy, TradeTaken;
    match x {
      case TradeEvent(t) => TradeClusters(s, t, cfg);
      case BookUpdated(id, time, bids, asks) =>
        LevelsKeepClusters(s.(lastEvent := Some(time), shadow := ShadowUpdate(s.shadow, bids, asks, id)),
                           ChangesOf(s.shadow, bids, asks), time, cfg);
      case _ =>
    }
  }

  lemma TradeClusters(s: EngineState, t: Trade, cfg: EngineConfig)
    requires ValidConfig(cfg)
    ensures var r := TradeTaken(s, t, cfg);
      && r.open == Some(C.Joined(s.open, t, cfg.proximity))
      && r.closed == if C.Closes(s.open, t, cfg.proximity) then s.closed + [s.open.value] else s.closed
  {
    hide H.Landed, C.Joined, C.Closes, A.Asked, A.Found, AsksAbsorption, BestFor, OpposingDepth, SweepBy, FlowAfter;
    var b := LargeChecked(FlowTaken(s, t, cfg), t, cfg);
    assert b.open == s.open && b.closed == s.closed;
    hide LargeChecked, FlowTaken;
  }

  lemma {:induction false} LevelsKeepClusters(s: EngineState, changes: seq<LevelChange>, time: nat, cfg: EngineConfig)
    requires ValidConfig(cfg)
    ensures LevelsTaken(s, changes, time, cfg).open == s.open && LevelsTaken(s, changes, time, cfg).closed == s.closed
    decreases |changes|
  {
    hide H.Landed, Observed, Matches, WindowsAfter;
    if changes != [] { LevelsKeepClusters(LevelTaken(s, changes[0], time, cfg), changes[1..], time, cfg); }
  }

  /** Over every run the clusters of the engine are those of its trades, pruned after every event. */
  lemma {:induction false} EngineClustersAreTracked(inputs: seq<R.Input>, cfg: EngineConfig, n: nat)
    requires ValidConfig(cfg) && n <= |inputs|
    ensures var s, heard := R.Run(FreshEngine, inputs, cfg, n), ClustersHeardIn(inputs, n);
      CR.Tracker(s.open, s.closed) == CR.Tracked(heard, CR.Settings(cfg.proximity, cfg.retention), |heard|)
  {
    hide Processed, CR.Next, NowAt, Reset;
    if n > 0 {
      EngineClustersAreTracked(inputs, cfg, n - 1);
      var s, input, settings := R.Run(FreshEngine, inputs, cfg, n - 1), inputs[n - 1],
                                CR.Settings(cfg.proximity, cfg.retention);
      var heard := ClustersHeardIn(inputs, n - 1);
      if input.Event? {
        var x, now := input.x, NowAt(inputs, n - 1);
        PruneTimeIsNow(inputs, cfg, n - 1);
        ClusterStep(s, x, now, cfg);
        var traded := if x.TradeEvent? then [CR.Traded(x.trade)] else [];
        if x.TradeEvent? { ClustersOneMore(heard, CR.Traded(x.trade), settings); } else { assert heard + [] == heard; }
        ClustersOneMore(heard + traded, CR.PruneDue(now), settings);
        assert heard + traded + [CR.PruneDue(now)] == heard + (traded + [CR.PruneDue(now)]);
      } else {
        assert heard + [] == heard;
        ResetKeepsClusters(s);
      }
    }
  }

  lemma ResetKeepsClusters(s: EngineState)
    ensures forall time :: Reset(s, time).open == s.open && Reset(s, time).closed == s.closed
  {
  }
}
