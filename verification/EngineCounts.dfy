/** What the counters of the engine count, over whole runs. */
module EngineCounts {
  import opened Engine
  import opened EngineHeat
  import opened Flow
  import opened Liquidity
  import opened Options
  import opened OrderBooks
  import opened Shadow
  import opened ShadowPrices
  import opened Wire
  import A = Absorption
  import C = Clusters
  import H = Heatmaps
  import R = EngineRuns
  import S = Sweeps

  /** Trades of at least the configured size. */
  function LargeIn(inputs: seq<R.Input>, cfg: EngineConfig, n: nat): nat
    requires n <= |inputs|
  {
    if n == 0 then 0
    else
      LargeIn(inputs, cfg, n - 1)
      + match inputs[n - 1]
        case Event(TradeEvent(t)) => if t.quantity >= cfg.largeThreshold then 1 else 0
        case _ => 0
  }

  /** Trades that close a cluster that is a sweep candidate. */
  function SweepsIn(inputs: seq<R.Input>, cfg: EngineConfig, n: nat): nat
    requires ValidConfig(cfg) && n <= |inputs|
  {
    if n == 0 then 0
    else
      SweepsIn(inputs, cfg, n - 1)
      + match inputs[n - 1]
        case Event(TradeEvent(t)) =>
          var open := R.Run(FreshEngine, inputs, cfg, n - 1).open;
          if C.Closes(open, t, cfg.proximity) && S.CandidateOf(open.value, cfg.sweep).Some? then 1 else 0
        case _ => 0
  }

  lemma TakenCounts(s: EngineState, x: MarketEvent, cfg: EngineConfig)
    requires ValidConfig(cfg)
    ensures var r := Taken(s, x, cfg).session;
      && r.largeTrades == s.session.largeTrades
                          + (if x.TradeEvent? && x.trade.quantity >= cfg.largeThreshold then 1 else 0)
      && r.sweeps == s.session.sweeps
                     + (if x.TradeEvent? && C.Closes(s.open, x.trade, cfg.proximity)
                           && S.CandidateOf(s.open.value, cfg.sweep).Some? then 1 else 0)
  {
    hide H.Landed, C.Joined, C.Closes, A.Asked, A.Found, AsksAbsorption, BestFor, OpposingDepth, Changes, Overlay;
    hide LevelsTaken, Crossed, ShadowSnapshot, FlowAfter, LargeAfter, S.CandidateOf;
    match x {
      case TradeEvent(t) => TradeCounts(s, t, cfg);
      case BookUpdated(id, time, bids, asks) =>
        LevelsKeepCounts(s.(lastEvent := Some(time), shadow := ShadowUpdate(s.shadow, bids, asks, id)),
                         ChangesOf(s.shadow, bids, asks), time, cfg);
      case _ =>
    }
  }

  lemma TradeCounts(s: EngineState, t: Trade, cfg: EngineConfig)
    requires ValidConfig(cfg)
    ensures var r := TradeTaken(s, t, cfg).session;
      && r.largeTrades == s.session.largeTrades + (if t.quantity >= cfg.largeThreshold then 1 else 0)
      && r.sweeps == s.session.sweeps + (if SweepBy(s, t, cfg).Some? then 1 else 0)
  {
    SameParts(s, t, cfg);
    var b := LargeChecked(FlowTaken(s, t, cfg), t, cfg);
    LargeCounts(FlowTaken(s, t, cfg), t, cfg);
    SweepCounts(b, t, cfg);
    hide LargeChecked, Clustered, H.Landed, SweepBy, A.Asked, A.Found, AsksAbsorption, BestFor, OpposingDepth;
    hide FlowAfter;
  }

  lemma LargeCounts(s: EngineState, t: Trade, cfg: EngineConfig)
    requires ValidConfig(cfg)
    ensures LargeChecked(s, t, cfg).session
         == s.session.(largeTrades := s.session.largeTrades + if t.quantity >= cfg.largeThreshold then 1 else 0)
  {
    hide H.Landed, LargeAfter;
  }

  lemma SweepCounts(s: EngineState, t: Trade, cfg: EngineConfig)
    requires ValidConfig(cfg)
    ensures Clustered(s, t, cfg).session
         == s.session.(sweeps := s.session.sweeps + if SweepBy(s, t, cfg).Some? then 1 else 0)
  {
    hide H.Landed, C.Joined, C.Closes;
    var sweep := SweepBy(s, t, cfg);
    hide SweepBy;
  }

  lemma {:induction false} LevelsKeepCounts(s: EngineState, changes: seq<LevelChange>, time: nat, cfg: EngineConfig)
    requires ValidConfig(cfg)
    ensures var r := LevelsTaken(s, changes, time, cfg);
      r.session == s.session && r.interval.anomalies == s.interval.anomalies
    decreases |changes|
  {
    hide H.Landed, Observed, Matches, WindowsAfter;
    if changes != [] { LevelsKeepCounts(LevelTaken(s, changes[0], time, cfg), changes[1..], time, cfg); }
  }

  lemma NextKeepsCounts(s: EngineState, input: R.Input, cfg: EngineConfig)
    requires ValidConfig(cfg)
    ensures R.Next(s, input, cfg).session == if input.Event? then Taken(s, input.x, cfg).session else s.session
  {
    hide Taken, Due, H.From, Liquidity.Pruned;
  }

  /** Over every run large trades and sweeps are counted one by one. */
  lemma {:induction false} SessionCounts(inputs: seq<R.Input>, cfg: EngineConfig, n: nat)
    requires ValidConfig(cfg) && n <= |inputs|
    ensures R.Run(FreshEngine, inputs, cfg, n).session.largeTrades == LargeIn(inputs, cfg, n)
    ensures R.Run(FreshEngine, inputs, cfg, n).session.sweeps == SweepsIn(inputs, cfg, n)
  {
    hide R.Next, Taken, C.Closes, S.CandidateOf;
    if n > 0 {
      SessionCounts(inputs, cfg, n - 1);
      var s := R.Run(FreshEngine, inputs, cfg, n - 1);
      NextKeepsCounts(s, inputs[n - 1], cfg);
      if inputs[n - 1].Event? { TakenCounts(s, inputs[n - 1].x, cfg); }
    }
  }

  /** Some bid is at or above some ask. */
  ghost predicate Overlaps(s: ShadowState) {
    exists p, q :: p in s.bids && q in s.asks && p >= q
  }

  /** The book overlapped when it was last replaced or updated, and there was no snapshot since. */
  ghost predicate Flagged(inputs: seq<R.Input>, cfg: EngineConfig, n: nat)
    requires ValidConfig(cfg) && n <= |inputs|
  {
    if n == 0 || R.Out(R.Run(FreshEngine, inputs, cfg, n - 1), inputs[n - 1], cfg) != [] then false
    else
      match inputs[n - 1]
      case Event(BookSnapshot(_, _, _)) => Overlaps(R.Run(FreshEngine, inputs, cfg, n).shadow)
      case Event(BookUpdated(_, _, _, _)) => Overlaps(R.Run(FreshEngine, inputs, cfg, n).shadow)
      case _ => Flagged(inputs, cfg, n - 1)
  }

  /** Lost connections. */
  function LossesIn(inputs: seq<R.Input>, n: nat): nat
    requires n <= |inputs|
  {
    if n == 0 then 0
    else
      LossesIn(inputs, n - 1)
      + match inputs[n - 1]
        case Event(ConnectionChanged(connected)) => if connected then 0 else 1
        case _ => 0
  }

  /** Books that arrive overlapping, and updates after which the book overlaps although it was not flagged before. */
  ghost function CrossingsIn(inputs: seq<R.Input>, cfg: EngineConfig, n: nat): nat
    requires ValidConfig(cfg) && n <= |inputs|
  {
    if n == 0 then 0
    else
      CrossingsIn(inputs, cfg, n - 1)
      + match inputs[n - 1]
        case Event(BookSnapshot(_, _, _)) => if Overlaps(R.Run(FreshEngine, inputs, cfg, n).shadow) then 1 else 0
        case Event(BookUpdated(_, _, _, _)) =>
          if Overlaps(R.Run(FreshEngine, inputs, cfg, n).shadow) && !Flagged(inputs, cfg, n - 1) then 1 else 0
        case _ => 0
  }

  function ReportedIn(snapshots: seq<MarketSnapshot>): nat {
    if snapshots == [] then 0
    else ReportedIn(snapshots[..|snapshots| - 1]) + snapshots[|snapshots| - 1].interval.anomalies
  }

  lemma ReportedAppend(snapshots: seq<MarketSnapshot>, out: seq<MarketSnapshot>)
    requires |out| <= 1
    ensures ReportedIn(snapshots + out)
         == ReportedIn(snapshots) + if out == [] then 0 else out[0].interval.anomalies
  {
    if out == [] {
      assert snapshots + out == snapshots;
    } else {
      assert (snapshots + out)[..|snapshots|] == snapshots;
    }
  }

  lemma TakenAnomalies(s: EngineState, x: MarketEvent, cfg: EngineConfig)
    requires ValidConfig(cfg)
    ensures var r := Taken(s, x, cfg);
      var crossing :=
        match x
        case BookSnapshot(_, _, _) => if Overlaps(r.shadow) then 1 else 0
        case BookUpdated(_, _, _, _) => if Overlaps(r.shadow) && !s.crossed then 1 else 0
        case _ => 0;
      && r.interval.anomalies
         == s.interval.anomalies + crossing + (if x.ConnectionChanged? && !x.connected then 1 else 0)
      && r.shadow.crossedCount == s.shadow.crossedCount + crossing
      && r.crossed == (if x.BookSnapshot? || x.BookUpdated? then Overlaps(r.shadow) else s.crossed)
  {
    hide TradeTaken, Changes, Overlay, LevelsTaken, Overlaps, Loaded;
    match x {
      case TradeEvent(t) => R.TradeFrame(s, t, cfg);
      case BookSnapshot(id, bids, asks) =>
        OverlapIsCrossed(Taken(s, x, cfg).shadow);
        OverlapIsCrossed(ShadowSnapshot(s.shadow, bids, asks, id));
      case BookUpdated(id, time, bids, asks) =>
        var changed := s.(lastEvent := Some(time), shadow := ShadowUpdate(s.shadow, bids, asks, id));
        LevelsKeepCounts(changed, ChangesOf(s.shadow, bids, asks), time, cfg);
        R.LevelsKeepLast(changed, ChangesOf(s.shadow, bids, asks), time, cfg);
        OverlapIsCrossed(Taken(s, x, cfg).shadow);
        OverlapIsCrossed(changed.shadow);
      case _ =>
    }
  }

  lemma OverlapIsCrossed(s: ShadowState)
    ensures Overlaps(s) <==> Crossed(s)
    ensures Crossed(s.(crossedCount := s.crossedCount + 1)) == Crossed(s)
  {
    CrossedExactly(s);
  }

  lemma InputAnomalies(s: EngineState, input: R.Input, cfg: EngineConfig)
    requires ValidConfig(cfg)
    ensures var before, out, next := R.Before(s, input, cfg), R.Out(s, input, cfg), R.Next(s, input, cfg);
      && |out| <= 1 && next.shadow == before.shadow
      && (out == [] ==> next.interval == before.interval && next.crossed == before.crossed)
      && (out != [] ==> out[0].interval == before.interval && next.interval == EmptyInterval && !next.crossed)
  {
    R.OutputShape(s, input, cfg);
    hide Taken, H.From, Liquidity.Pruned, Due, Crossed, DepthOf, MicropriceOf;
  }

  /** Over every run the flag is that, and the anomalies that snapshots reported, together with those of the current
      interval, are exactly the losses and the crossings, which the shadow book counts too. */
  lemma {:induction false} AnomaliesAreCounted(inputs: seq<R.Input>, cfg: EngineConfig, n: nat)
    requires ValidConfig(cfg) && n <= |inputs|
    ensures R.Run(FreshEngine, inputs, cfg, n).crossed == Flagged(inputs, cfg, n)
    ensures ReportedIn(R.Snapshots(FreshEngine, inputs, cfg, n))
            + R.Run(FreshEngine, inputs, cfg, n).interval.anomalies
         == LossesIn(inputs, n) + CrossingsIn(inputs, cfg, n)
    ensures R.Run(FreshEngine, inputs, cfg, n).shadow.crossedCount == CrossingsIn(inputs, cfg, n)
  {
    hide R.Next, R.Out, Taken, Overlaps, ReportedIn;
    if n == 0 {
      NothingReported();
    } else {
      AnomaliesAreCounted(inputs, cfg, n - 1);
      var s, input := R.Run(FreshEngine, inputs, cfg, n - 1), inputs[n - 1];
      InputAnomalies(s, input, cfg);
      ReportedAppend(R.Snapshots(FreshEngine, inputs, cfg, n - 1), R.Out(s, input, cfg));
      if input.Event? { TakenAnomalies(s, input.x, cfg); }
    }
  }

  lemma NothingReported()
    ensures ReportedIn([]) == 0
  {
  }
}
