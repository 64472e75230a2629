/** Two analytics engines fed by different event streams of one session: what stays equal. */
module EngineTwins {
  import opened Arithmetic
  import opened Engine
  import opened Flow
  import opened HeatmapAlike
  import opened Liquidity
  import opened Options
  import opened OrderBooks
  import opened Shadow
  import opened Wire
  import A = Absorption
  import C = Clusters
  import H = Heatmaps
  import R = EngineRuns

  /** Flow, clusters, sessions and what the interval counts of them. */
  datatype TradeSide = TradeSide(
    flow: FlowState,
    open: Option<C.Cluster>,
    closed: seq<C.Cluster>,
    session: Session,
    interval: Interval,
    lastEvent: Option<nat>,
    lastSnapshot: Option<nat>,
    replenishments: nat)

  function TradeSideOf(s: EngineState): TradeSide {
    TradeSide(s.flow, s.open, s.closed, s.session, s.interval.(absorptions := 0, anomalies := 0),
              s.lastEvent, s.lastSnapshot, s.liquidity.replenishments)
  }

  /** Equal but for shadow book, level records, absorption and anomalies. */
  ghost predicate Common(l: EngineState, r: EngineState) {
    TradeSideOf(l) == TradeSideOf(r) && Alike(l.grid, r.grid)
  }

  /** The same displayed book with the same liquidity records. */
  predicate SameBook(l: EngineState, r: EngineState) {
    && l.shadow.bids == r.shadow.bids && l.shadow.asks == r.shadow.asks
    && l.shadow.ready && r.shadow.ready
    && l.liquidity == r.liquidity && l.crossed == r.crossed
  }

  function LastTime(s: EngineState): nat {
    if s.lastEvent.Some? then s.lastEvent.value else 0
  }

  /** Nothing is left to prune at the time of the last event. */
  ghost predicate Settled(s: EngineState, cfg: EngineConfig) {
    PrunedAt(s, LastTime(s), cfg) == s
  }

  lemma PruneTwice(s: EngineState, now: nat, cfg: EngineConfig)
    ensures PrunedAt(PrunedAt(s, now, cfg), now, cfg) == PrunedAt(s, now, cfg)
  {
    hide C.Expired, Liquidity.Pruned, Saturating;
    var cutoff := Saturating(now, cfg.retention);
    PruneLiquidityTwice(s.liquidity, now, cfg.window, cfg.retention);
    ExpiredTwice(s.closed, cutoff);
    RetainedTwice(s.flow.completed, now, cfg.retention);
    assert H.From(H.From(s.grid, cutoff), cutoff) == H.From(s.grid, cutoff);
  }

  lemma ExpiredTwice(closed: seq<C.Cluster>, cutoff: nat)
    ensures var rest := closed[C.Expired(closed, cutoff)..]; C.Expired(rest, cutoff) == 0 && rest[0..] == rest
  {
  }

  lemma {:induction false} RetainedTwice(buckets: seq<TimeBucket>, now: nat, retentionMs: nat)
    ensures var rest := Retained(buckets, now, retentionMs); Retained(rest, now, retentionMs) == rest
    decreases |buckets|
  {
    if buckets != [] && now >= retentionMs && buckets[0].end < now - retentionMs {
      RetainedTwice(buckets[1..], now, retentionMs);
    }
  }

  lemma PruneLiquidityTwice(s: LiquidityState, now: nat, window: nat, retention: nat)
    ensures var p := Liquidity.Pruned(s, now, window, retention); Liquidity.Pruned(p, now, window, retention) == p
  {
    hide Trimmed;
    var p := Liquidity.Pruned(s, now, window, retention);
    NoneVanishes(s.levels, now, retention);
    assert p.levels - {} == p.levels && p.drops - {} == p.drops;
    AllTrimTwice(s.drops - Vanished(s.levels, now, retention), now, window);
  }

  lemma NoneVanishes(levels: map<LevelKey, Persistence>, now: nat, retention: nat)
    ensures Vanished(levels - Vanished(levels, now, retention), now, retention) == {}
  {
    hide Forgotten;
  }

  lemma AllTrimTwice(drops: map<LevelKey, seq<Decrease>>, now: nat, window: nat)
    ensures var p := AllTrimmed(drops, now, window); AllTrimmed(p, now, window) == p
  {
    hide Trimmed;
    var p := AllTrimmed(drops, now, window);
    forall k | k in p ensures Trimmed(p[k], now, window) == p[k] {
      TrimTwice(drops[k], now, window);
    }
  }

  lemma TrimTwice(q: seq<Decrease>, now: nat, window: nat)
    ensures Trimmed(Trimmed(q, now, window), now, window) == Trimmed(q, now, window)
  {
    var rest := Trimmed(q, now, window);
    assert FirstUnexpired(rest, now, window) == 0;
    assert rest[0..] == rest;
  }

  lemma PruneKeeps(s: EngineState, now: nat, cfg: EngineConfig)
    ensures var p := PrunedAt(s, now, cfg);
      && p.shadow == s.shadow && p.open == s.open
      && p.flow.totals == s.flow.totals && p.flow.volumeByPrice == s.flow.volumeByPrice
      && p.session == s.session && p.interval == s.interval && p.lastEvent == s.lastEvent
      && p.lastSnapshot == s.lastSnapshot && p.crossed == s.crossed && p.absorption == s.absorption
      && p.liquidity.replenishments == s.liquidity.replenishments
  {
  }

  lemma CommonPruned(l: EngineState, r: EngineState, now: nat, cfg: EngineConfig)
    requires Common(l, r)
    ensures Common(PrunedAt(l, now, cfg), PrunedAt(r, now, cfg))
    ensures SameBook(l, r) ==> SameBook(PrunedAt(l, now, cfg), PrunedAt(r, now, cfg))
  {
    hide Alike, H.From, Vanished, AllTrimmed;
    FromAlike(l.grid, r.grid, Saturating(now, cfg.retention));
  }

  lemma CommonReset(l: EngineState, r: EngineState, time: nat)
    requires Common(l, r)
    ensures Common(Reset(l, time), Reset(r, time))
    ensures SameBook(l, r) ==> SameBook(Reset(l, time), Reset(r, time))
  {
    hide Alike;
  }

  /** Whatever an event does, the engine has pruned at its own time. */
  lemma ProcessedSettled(s: EngineState, x: MarketEvent, cfg: EngineConfig)
    requires ValidConfig(cfg)
    ensures Settled(Processed(s, x, cfg), cfg)
  {
    hide Taken, PrunedAt, Due;
    var taken := Taken(s, x, cfg);
    var settled := if Finalizes(taken, x, cfg) then Reset(taken, SnapshotTime(x).value) else taken;
    var now := PruneTime(settled, x);
    R.TakingKeepsLast(s, x, cfg);
    PruneKeeps(settled, now, cfg);
    PruneTwice(settled, now, cfg);
  }

  /** What the outputs of common engines have in common. */
  predicate SameSnapshot(a: MarketSnapshot, b: MarketSnapshot) {
    && a.timestamp == b.timestamp && a.cvd == b.cvd
    && a.interval.(absorptions := 0, anomalies := 0) == b.interval.(absorptions := 0, anomalies := 0)
  }

  ghost predicate SameSnapshots(a: seq<MarketSnapshot>, b: seq<MarketSnapshot>) {
    |a| == |b| && forall i | 0 <= i < |a| :: SameSnapshot(a[i], b[i])
  }

  /** Common after the event was taken in: common, with corresponding snapshots, after it was processed. */
  lemma CommonSettles(l: EngineState, r: EngineState, x: MarketEvent, cfg: EngineConfig)
    requires ValidConfig(cfg) && (x.TradeEvent? || x.BookUpdated?)
    requires Common(Taken(l, x, cfg), Taken(r, x, cfg))
    ensures Common(Processed(l, x, cfg), Processed(r, x, cfg))
    ensures SameSnapshots(Finalized(l, x, cfg), Finalized(r, x, cfg))
    ensures SameBook(Taken(l, x, cfg), Taken(r, x, cfg)) ==> SameBook(Processed(l, x, cfg), Processed(r, x, cfg))
  {
    hide Taken, PrunedAt, Due, Alike, SameBook, Crossed, Reset;
    var a, b, time := Taken(l, x, cfg), Taken(r, x, cfg), SnapshotTime(x).value;
    if Finalizes(a, x, cfg) {
      CommonReset(a, b, time);
      CommonPruned(Reset(a, time), Reset(b, time), time, cfg);
    } else {
      CommonPruned(a, b, time, cfg);
    }
  }

  lemma AbsorptionCommon(s: EngineState, t: Trade, cfg: EngineConfig)
    requires ValidConfig(cfg)
    ensures Common(AbsorptionChecked(s, t, cfg), s)
    ensures var r := AbsorptionChecked(s, t, cfg);
      r.shadow == s.shadow && r.liquidity == s.liquidity && r.crossed == s.crossed
  {
    hide AsksAbsorption, A.Asked, A.Found, BestFor, OpposingDepth, H.Landed, Alike;
    var found := A.Found(s.absorption, t, cfg.absorption);
    AlikeSelf(s.grid);
    if found.Some? {
      AbsorbedAlike(s.grid, H.Absorbed(found.value.window.closeAt, found.value.window.price), ScaleOf(cfg));
    }
  }

  lemma AlikeSelf(g: H.Grid)
    ensures Alike(g, g)
  {
  }

  lemma FlowCommon(l: EngineState, r: EngineState, t: Trade, cfg: EngineConfig)
    requires ValidConfig(cfg) && Common(l, r)
    ensures Common(FlowTaken(l, t, cfg), FlowTaken(r, t, cfg))
  {
    hide Alike, H.Landed, FlowAfter;
    SameLanded(l.grid, r.grid, H.Traded(t.tradeTime, t), ScaleOf(cfg));
  }

  lemma LargeCommon(l: EngineState, r: EngineState, t: Trade, cfg: EngineConfig)
    requires ValidConfig(cfg) && Common(l, r)
    ensures Common(LargeChecked(l, t, cfg), LargeChecked(r, t, cfg))
  {
    hide Alike, H.Landed, LargeAfter;
    SameLanded(l.grid, r.grid, H.LargeTraded(t.tradeTime, t), ScaleOf(cfg));
  }

  lemma ClusterCommon(l: EngineState, r: EngineState, t: Trade, cfg: EngineConfig)
    requires ValidConfig(cfg) && Common(l, r)
    ensures Common(Clustered(l, t, cfg), Clustered(r, t, cfg))
  {
    hide Alike, H.Landed, SweepBy, C.Joined, C.Closes;
    SameSweep(l, r, t, cfg);
    var sweep := SweepBy(l, t, cfg);
    if sweep.Some? {
      SameLanded(l.grid, r.grid, H.Swept(sweep.value.end, sweep.value.lastPrice), ScaleOf(cfg));
    }
  }

  lemma SameSweep(l: EngineState, r: EngineState, t: Trade, cfg: EngineConfig)
    requires ValidConfig(cfg) && l.open == r.open
    ensures SweepBy(l, t, cfg) == SweepBy(r, t, cfg)
  {
  }

  /** A trade keeps engines common, whatever their books and absorption windows are. */
  lemma TradeCommon(l: EngineState, r: EngineState, t: Trade, cfg: EngineConfig)
    requires ValidConfig(cfg) && Common(l, r)
    ensures Common(TradeTaken(l, t, cfg), TradeTaken(r, t, cfg))
    ensures SameBook(l, r) ==> SameBook(TradeTaken(l, t, cfg), TradeTaken(r, t, cfg))
  {
    var a := Clustered(LargeChecked(FlowTaken(l, t, cfg), t, cfg), t, cfg);
    var b := Clustered(LargeChecked(FlowTaken(r, t, cfg), t, cfg), t, cfg);
    ClusteredBook(l, t, cfg);
    ClusteredBook(r, t, cfg);
    hide Common, FlowTaken, LargeChecked, Clustered, AbsorptionChecked;
    FlowCommon(l, r, t, cfg);
    LargeCommon(FlowTaken(l, t, cfg), FlowTaken(r, t, cfg), t, cfg);
    ClusterCommon(LargeChecked(FlowTaken(l, t, cfg), t, cfg), LargeChecked(FlowTaken(r, t, cfg), t, cfg), t, cfg);
    AbsorptionCommon(a, t, cfg);
    AbsorptionCommon(b, t, cfg);
    CommonChain(AbsorptionChecked(a, t, cfg), a, b, AbsorptionChecked(b, t, cfg));
  }

  lemma ClusteredBook(s: EngineState, t: Trade, cfg: EngineConfig)
    requires ValidConfig(cfg)
    ensures var r := Clustered(LargeChecked(FlowTaken(s, t, cfg), t, cfg), t, cfg);
      r.shadow == s.shadow && r.liquidity == s.liquidity && r.crossed == s.crossed
  {
    hide H.Landed, SweepBy, C.Joined, C.Closes, FlowAfter, LargeAfter;
  }

  lemma CommonChain(a: EngineState, b: EngineState, c: EngineState, d: EngineState)
    requires Common(a, b) && Common(b, c) && Common(d, c)
    ensures Common(a, d)
  {
    hide Alike;
    AlikeChain(d.grid, c.grid, c.grid) by { AlikeSelf(c.grid); }
    AlikeChain(a.grid, b.grid, c.grid);
    AlikeChain(a.grid, c.grid, d.grid);
  }

  lemma LevelCommon(l: EngineState, r: EngineState, c: LevelChange, time: nat, cfg: EngineConfig)
    requires ValidConfig(cfg) && Common(l, r) && l.liquidity == r.liquidity
    ensures Common(LevelTaken(l, c, time, cfg), LevelTaken(r, c, time, cfg))
    ensures LevelTaken(l, c, time, cfg).liquidity == LevelTaken(r, c, time, cfg).liquidity
  {
    hide Alike, H.Landed, Observed, Matches, WindowsAfter;
    var shown, refilled := H.Shown(time, c), H.Refilled(time, c.price);
    SameLanded(l.grid, r.grid, shown, ScaleOf(cfg));
    SameLanded(H.Landed(l.grid, shown, ScaleOf(cfg)), H.Landed(r.grid, shown, ScaleOf(cfg)), refilled, ScaleOf(cfg));
  }

  lemma {:induction false} LevelsCommon(l: EngineState, r: EngineState, changes: seq<LevelChange>, time: nat,
                                        cfg: EngineConfig)
    requires ValidConfig(cfg) && Common(l, r) && l.liquidity == r.liquidity
    ensures Common(LevelsTaken(l, changes, time, cfg), LevelsTaken(r, changes, time, cfg))
    ensures LevelsTaken(l, changes, time, cfg).liquidity == LevelsTaken(r, changes, time, cfg).liquidity
    decreases |changes|
  {
    hide Common, LevelTaken;
    if changes != [] {
      LevelCommon(l, r, changes[0], time, cfg);
      LevelsCommon(LevelTaken(l, changes[0], time, cfg), LevelTaken(r, changes[0], time, cfg), changes[1..], time, cfg);
    }
  }

  lemma CrossFrame(s: EngineState)
    ensures var r := CrossChecked(s);
      && TradeSideOf(r) == TradeSideOf(s) && r.grid == s.grid && r.liquidity == s.liquidity
      && r.shadow.bids == s.shadow.bids && r.shadow.asks == s.shadow.asks && r.shadow.ready == s.shadow.ready
      && r.crossed == Crossed(s.shadow)
  {
    hide Crossed;
  }

  lemma SameCrossed(a: ShadowState, b: ShadowState)
    requires a.bids == b.bids && a.asks == b.asks
    ensures Crossed(a) == Crossed(b)
  {
  }

  /** An update of the same displayed book keeps engines common and the book the same. */
  lemma UpdateCommon(l: EngineState, r: EngineState, id: nat, time: nat, bids: seq<Level>, asks: seq<Level>,
                     cfg: EngineConfig)
    requires ValidConfig(cfg) && Common(l, r) && SameBook(l, r)
    ensures Common(BookChanged(l, id, time, bids, asks, cfg), BookChanged(r, id, time, bids, asks, cfg))
    ensures SameBook(BookChanged(l, id, time, bids, asks, cfg), BookChanged(r, id, time, bids, asks, cfg))
  {
    hide Alike, Changes, Overlay, LevelsTaken, CrossChecked, Crossed;
    var changes := Changes(l.shadow.bids, bids, Bid) + Changes(l.shadow.asks, asks, Ask);
    var a := l.(lastEvent := Some(time), shadow := ShadowUpdate(l.shadow, bids, asks, id));
    var b := r.(lastEvent := Some(time), shadow := ShadowUpdate(r.shadow, bids, asks, id));
    LevelsCommon(a, b, changes, time, cfg);
    R.LevelsKeepLast(a, changes, time, cfg);
    R.LevelsKeepLast(b, changes, time, cfg);
    CrossFrame(LevelsTaken(a, changes, time, cfg));
    CrossFrame(LevelsTaken(b, changes, time, cfg));
    SameCrossed(a.shadow, b.shadow);
  }

  /** Events about the book alone change nothing that common engines share. */
  lemma BookEventCommon(s: EngineState, x: MarketEvent, cfg: EngineConfig)
    requires ValidConfig(cfg) && Settled(s, cfg)
    requires x.Synchronized? || x.BookSnapshot? || x.ResyncStarted? || x.ResyncCompleted?
    ensures Common(Processed(s, x, cfg), s) && Finalized(s, x, cfg) == []
  {
    hide Taken, PrunedAt, Alike;
    var taken := Taken(s, x, cfg);
    BookEventTaken(s, x, cfg);
    SettledParts(s, cfg);
    SamePruned(taken, s, LastTime(s), cfg);
    AlikeSelf(s.grid);
  }

  lemma BookEventTaken(s: EngineState, x: MarketEvent, cfg: EngineConfig)
    requires ValidConfig(cfg)
    requires x.Synchronized? || x.BookSnapshot? || x.ResyncStarted? || x.ResyncCompleted?
    ensures var r := Taken(s, x, cfg); TradeSideOf(r) == TradeSideOf(s) && r.grid == s.grid
  {
    hide ShadowSnapshot, Crossed;
  }

  lemma SettledParts(s: EngineState, cfg: EngineConfig)
    requires Settled(s, cfg)
    ensures var p := PrunedAt(s, LastTime(s), cfg); p.closed == s.closed && p.grid == s.grid && p.flow == s.flow
  {
    hide PrunedAt;
  }

  lemma SamePruned(a: EngineState, b: EngineState, now: nat, cfg: EngineConfig)
    requires TradeSideOf(a) == TradeSideOf(b) && a.grid == b.grid
    ensures TradeSideOf(PrunedAt(a, now, cfg)) == TradeSideOf(PrunedAt(b, now, cfg))
    ensures PrunedAt(a, now, cfg).grid == PrunedAt(b, now, cfg).grid
    ensures PrunedAt(b, now, cfg).closed == b.closed && PrunedAt(b, now, cfg).flow == b.flow
        ==> TradeSideOf(PrunedAt(b, now, cfg)) == TradeSideOf(b)
  {
    hide H.From, Vanished, AllTrimmed, C.Expired;
  }

  /** Seeding both engines with one listing gives them the same book. */
  lemma SeedSame(l: EngineState, r: EngineState, m: nat, n: nat, bids: seq<Level>, asks: seq<Level>, cfg: EngineConfig)
    requires ValidConfig(cfg) && Common(l, r)
    ensures SameBook(Processed(l, MarketEvent.BookSnapshot(m, bids, asks), cfg),
                     Processed(r, MarketEvent.BookSnapshot(n, bids, asks), cfg))
  {
    hide Taken, PrunedAt, Alike;
    var x, y := MarketEvent.BookSnapshot(m, bids, asks), MarketEvent.BookSnapshot(n, bids, asks);
    SeedTaken(l, r, m, n, bids, asks, cfg);
    SameBookPruned(Taken(l, x, cfg), Taken(r, y, cfg), LastTime(l), cfg);
    SeedKeepsLast(l, x, cfg);
    SeedKeepsLast(r, y, cfg);
  }

  lemma SeedKeepsLast(s: EngineState, x: MarketEvent, cfg: EngineConfig)
    requires ValidConfig(cfg) && x.BookSnapshot?
    ensures Taken(s, x, cfg).lastEvent == s.lastEvent
  {
    hide ShadowSnapshot, Crossed;
  }

  lemma SameBookPruned(l: EngineState, r: EngineState, now: nat, cfg: EngineConfig)
    requires SameBook(l, r)
    ensures SameBook(PrunedAt(l, now, cfg), PrunedAt(r, now, cfg))
  {
    hide H.From, C.Expired, Vanished, AllTrimmed;
  }

  lemma SeedTaken(l: EngineState, r: EngineState, m: nat, n: nat, bids: seq<Level>, asks: seq<Level>, cfg: EngineConfig)
    requires ValidConfig(cfg) && Common(l, r)
    ensures SameBook(Taken(l, MarketEvent.BookSnapshot(m, bids, asks), cfg),
                     Taken(r, MarketEvent.BookSnapshot(n, bids, asks), cfg))
  {
    SeedShape(l, m, bids, asks);
    SeedShape(r, n, bids, asks);
    hide BookSeeded;
  }

  lemma SeedShape(s: EngineState, n: nat, bids: seq<Level>, asks: seq<Level>)
    ensures var r := BookSeeded(s, n, bids, asks);
      && r.shadow.bids == Loaded(map[], bids).0 && r.shadow.asks == Loaded(map[], asks).0 && r.shadow.ready
      && r.liquidity == Cleared(s.liquidity) && r.crossed == Crossed(r.shadow)
  {
    hide Loaded, Crossed;
    var seeded := ShadowSnapshot(s.shadow, bids, asks, n);
    SameCrossed(seeded, seeded.(crossedCount := seeded.crossedCount + 1));
  }

  /** Announcing that the book is ready, or that a resynchronization is over, changes nothing. */
  lemma AnnouncementIdle(s: EngineState, x: MarketEvent, cfg: EngineConfig)
    requires ValidConfig(cfg) && Settled(s, cfg) && s.shadow.ready && (x.Synchronized? || x.ResyncCompleted?)
    ensures Processed(s, x, cfg) == s && Finalized(s, x, cfg) == []
  {
    hide PrunedAt;
  }

  /** The state with another update id in the shadow book, which nothing else depends on. */
  function WithId(s: EngineState, id: Option<nat>): EngineState {
    s.(shadow := s.shadow.(lastUpdateId := id))
  }

  lemma TradeIgnoresId(s: EngineState, t: Trade, id: Option<nat>, cfg: EngineConfig)
    requires ValidConfig(cfg)
    ensures TradeTaken(WithId(s, id), t, cfg) == WithId(TradeTaken(s, t, cfg), id)
  {
    hide FlowTaken, LargeChecked, Clustered, AbsorptionChecked, WithId;
    var a := FlowTaken(s, t, cfg);
    FlowIgnoresId(s, t, id, cfg);
    LargeIgnoresId(a, t, id, cfg);
    ClusterIgnoresId(LargeChecked(a, t, cfg), t, id, cfg);
    AbsorptionIgnoresId(Clustered(LargeChecked(a, t, cfg), t, cfg), t, id, cfg);
  }

  lemma FlowIgnoresId(s: EngineState, t: Trade, id: Option<nat>, cfg: EngineConfig)
    requires ValidConfig(cfg)
    ensures FlowTaken(WithId(s, id), t, cfg) == WithId(FlowTaken(s, t, cfg), id)
  {
    hide H.Landed, FlowAfter, IntervalAfter;
  }

  lemma LargeIgnoresId(s: EngineState, t: Trade, id: Option<nat>, cfg: EngineConfig)
    requires ValidConfig(cfg)
    ensures LargeChecked(WithId(s, id), t, cfg) == WithId(LargeChecked(s, t, cfg), id)
  {
    hide H.Landed, LargeAfter;
  }

  lemma ClusterIgnoresId(s: EngineState, t: Trade, id: Option<nat>, cfg: EngineConfig)
    requires ValidConfig(cfg)
    ensures Clustered(WithId(s, id), t, cfg) == WithId(Clustered(s, t, cfg), id)
  {
    hide H.Landed, SweepBy, C.Joined, C.Closes;
    SameSweep(WithId(s, id), s, t, cfg);
  }

  lemma AbsorptionIgnoresId(s: EngineState, t: Trade, id: Option<nat>, cfg: EngineConfig)
    requires ValidConfig(cfg)
    ensures AbsorptionChecked(WithId(s, id), t, cfg) == WithId(AbsorptionChecked(s, t, cfg), id)
  {
    hide H.Landed, A.Asked, A.Found, AsksAbsorption, BestFor, OpposingDepth;
    AnswersIgnoreId(s, t, id, cfg);
  }

  lemma AnswersIgnoreId(s: EngineState, t: Trade, id: Option<nat>, cfg: EngineConfig)
    ensures AsksAbsorption(WithId(s, id), t) == AsksAbsorption(s, t)
    ensures BestFor(WithId(s, id).shadow, t) == BestFor(s.shadow, t)
    ensures OpposingDepth(WithId(s, id).shadow, t, cfg) == OpposingDepth(s.shadow, t, cfg)
  {
    hide TopVolume, Listing, Reversed;
  }

  lemma SnapshotIgnoresId(s: EngineState, time: nat, id: Option<nat>, cfg: EngineConfig)
    ensures SnapshotAt(WithId(s, id), time, cfg) == SnapshotAt(s, time, cfg)
  {
    hide TopVolume, Listing, Reversed;
  }

  /** Engines that differ in that id alone stay so, with equal snapshots, under trades; an update makes them
      equal. */
  lemma TimedIgnoresId(s: EngineState, x: MarketEvent, id: Option<nat>, cfg: EngineConfig)
    requires ValidConfig(cfg) && (x.TradeEvent? || x.BookUpdated?)
    ensures Processed(WithId(s, id), x, cfg)
         == if x.BookUpdated? then Processed(s, x, cfg) else WithId(Processed(s, x, cfg), id)
    ensures Finalized(WithId(s, id), x, cfg) == Finalized(s, x, cfg)
  {
    hide H.From, Liquidity.Pruned, TradeTaken, BookChanged, SnapshotAt, Due, C.Expired;
    if x.TradeEvent? {
      TradeIgnoresId(s, x.trade, id, cfg);
      SnapshotIgnoresId(TradeTaken(s, x.trade, cfg), x.trade.tradeTime, id, cfg);
    } else {
      UpdateIgnoresId(s, x.id, x.time, x.bids, x.asks, id, cfg);
    }
  }

  lemma UpdateIgnoresId(s: EngineState, n: nat, time: nat, bids: seq<Level>, asks: seq<Level>, id: Option<nat>,
                        cfg: EngineConfig)
    requires ValidConfig(cfg)
    ensures BookChanged(WithId(s, id), n, time, bids, asks, cfg) == BookChanged(s, n, time, bids, asks, cfg)
  {
    hide Changes, Overlay, LevelsTaken, CrossChecked;
    var s' := WithId(s, id);
    assert s'.(lastEvent := Some(time), shadow := ShadowUpdate(s'.shadow, bids, asks, n))
        == s.(lastEvent := Some(time), shadow := ShadowUpdate(s.shadow, bids, asks, n));
  }

  lemma SeedIgnoresId(s: EngineState, m: nat, n: nat, bids: seq<Level>, asks: seq<Level>, id: Option<nat>,
                      cfg: EngineConfig)
    requires ValidConfig(cfg)
    ensures Processed(WithId(s, id), MarketEvent.BookSnapshot(m, bids, asks), cfg)
         == WithId(Processed(s, MarketEvent.BookSnapshot(n, bids, asks), cfg), Some(m))
  {
    hide H.From, Liquidity.Pruned, Loaded, C.Expired, BookSeeded;
    SeededIgnoresId(s, m, n, bids, asks, id);
  }

  lemma SeededIgnoresId(s: EngineState, m: nat, n: nat, bids: seq<Level>, asks: seq<Level>, id: Option<nat>)
    ensures BookSeeded(WithId(s, id), m, bids, asks) == WithId(BookSeeded(s, n, bids, asks), Some(m))
    ensures BookSeeded(s, n, bids, asks).lastEvent == s.lastEvent
  {
    hide Loaded, Crossed;
    SameCrossed(ShadowSnapshot(WithId(s, id).shadow, bids, asks, m), ShadowSnapshot(s.shadow, bids, asks, n));
  }
}
