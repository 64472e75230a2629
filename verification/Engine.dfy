/** The analytics engine: shadow book, flow, liquidity, clusters, sweeps and heatmap fed by one event
    stream, with interval snapshots (src/analytics/engine.rs). */
module Engine {
  import opened Arithmetic
  import opened Flow
  import opened Liquidity
  import opened Options
  import opened Ordering
  import opened OrderBooks
  import opened Shadow
  import opened Wire
  import A = Absorption
  import C = Clusters
  import H = Heatmaps
  import S = Sweeps

  datatype MarketEvent =
    | Synchronized
    | BookSnapshot(id: nat, bids: seq<Level>, asks: seq<Level>)
    | BookUpdated(id: nat, time: nat, bids: seq<Level>, asks: seq<Level>)
    | ResyncStarted
    | ResyncCompleted
    | TradeEvent(trade: Trade)
    | ConnectionChanged(connected: bool)

  datatype EngineConfig = EngineConfig(
    intervals: seq<nat>,
    window: nat,
    retention: nat,
    proximity: C.Proximity,
    sweep: S.SweepConfig,
    absorption: A.AbsorptionConfig,
    largeThreshold: nat,
    cellWidth: nat,
    depth: nat,
    snapshotInterval: nat)

  predicate ValidConfig(cfg: EngineConfig) {
    && cfg.sweep.minLevels > 0 && cfg.sweep.minVolume > 0 && cfg.absorption.minVolume > 0 && cfg.cellWidth > 0
    && (forall i | 0 <= i < |cfg.intervals| :: cfg.intervals[i] > 0)
    && (forall i, j | 0 <= i < j < |cfg.intervals| :: cfg.intervals[i] != cfg.intervals[j])
  }

  /** Counters since the last snapshot. */
  datatype Interval = Interval(
    tradeVolume: nat,
    buyVolume: nat,
    sellVolume: nat,
    delta: int,
    largeTrades: nat,
    sweeps: nat,
    absorptions: nat,
    replenishments: nat,
    anomalies: nat)

  const EmptyInterval := Interval(0, 0, 0, 0, 0, 0, 0, 0, 0)

  /** Counters of the detectors over the whole session. */
  datatype Session = Session(largeTrades: nat, sweeps: nat)

  datatype MarketSnapshot = MarketSnapshot(
    timestamp: nat,
    bookReady: bool,
    bestBid: Option<nat>,
    bestAsk: Option<nat>,
    midPrice: Option<real>,
    spread: Option<nat>,
    microprice: Option<Microprice>,
    depthVolume: (nat, nat),
    imbalance: Option<real>,
    interval: Interval,
    cvd: int,
    added: nat,
    removed: nat,
    crossed: bool)

  datatype EngineState = EngineState(
    shadow: ShadowState,
    flow: FlowState,
    liquidity: LiquidityState,
    absorption: A.AbsorptionState,
    open: Option<C.Cluster>,
    closed: seq<C.Cluster>,
    grid: H.Grid,
    session: Session,
    interval: Interval,
    lastEvent: Option<nat>,
    lastSnapshot: Option<nat>,
    crossed: bool)

  const FreshEngine := EngineState(EmptyShadow, EmptyFlow, NoLiquidity, A.NoAbsorption, None, [], map[],
                                   Session(0, 0), EmptyInterval, None, None, false)

  function ScaleOf(cfg: EngineConfig): H.Scale {
    H.Scale(cfg.cellWidth, 1)
  }

  /** The absorption windows see every change, and a rise as a replenishment as well. */
  function WindowsAfter(s: A.AbsorptionState, c: LevelChange, time: nat, cfg: EngineConfig): A.AbsorptionState {
    var refilled :=
      if Rises(c) then A.AllReplenished(s.windows, c.price, c.newQuantity, time, cfg.absorption) else s.windows;
    s.(windows := A.AllFaced(refilled, c.price, c.newQuantity, time, cfg.absorption))
  }

  /** One level change: liquidity, heatmap, absorption windows, and a replenishment if the tracker reports
      one. */
  function LevelTaken(s: EngineState, c: LevelChange, time: nat, cfg: EngineConfig): EngineState
    requires ValidConfig(cfg)
  {
    var grid := H.Landed(s.grid, H.Shown(time, c), ScaleOf(cfg));
    var seen := s.(liquidity := Observed(s.liquidity, c, time, cfg.window), grid := grid,
                   absorption := WindowsAfter(s.absorption, c, time, cfg));
    if Matches(s.liquidity, c, time, cfg.window) then Refilled(seen, c.price, time, cfg) else seen
  }

  function Refilled(s: EngineState, price: nat, time: nat, cfg: EngineConfig): EngineState
    requires ValidConfig(cfg)
  {
    s.(grid := H.Landed(s.grid, H.Refilled(time, price), ScaleOf(cfg)),
    interval := s.interval.(replenishments := s.interval.replenishments + 1))
  }

  function LevelsTaken(s: EngineState, changes: seq<LevelChange>, time: nat, cfg: EngineConfig): EngineState
    requires ValidConfig(cfg)
    decreases |changes|
  {
    if changes == [] then s else LevelsTaken(LevelTaken(s, changes[0], time, cfg), changes[1..], time, cfg)
  }

  function Anomalous(s: EngineState): EngineState {
    s.(interval := s.interval.(anomalies := s.interval.anomalies + 1))
  }

  function CrossRecorded(s: EngineState): EngineState {
    Anomalous(s.(shadow := s.shadow.(crossedCount := s.shadow.crossedCount + 1)))
  }

  /** A crossed book is an anomaly when it was not crossed before. */
  function CrossChecked(s: EngineState): EngineState {
    if !Crossed(s.shadow) then s.(crossed := false)
    else if s.crossed then s
    else CrossRecorded(s).(crossed := true)
  }

  function BookSeeded(s: EngineState, id: nat, bids: seq<Level>, asks: seq<Level>): EngineState {
    var seeded := s.(shadow := ShadowSnapshot(s.shadow, bids, asks, id), liquidity := Cleared(s.liquidity));
    if Crossed(seeded.shadow) then CrossRecorded(seeded).(crossed := true) else seeded.(crossed := false)
  }

  function BookLost(s: EngineState): EngineState {
    s.(shadow := ShadowReady(s.shadow, false), liquidity := Cleared(s.liquidity))
  }

  function BookChanged(s: EngineState, id: nat, time: nat, bids: seq<Level>, asks: seq<Level>,
                       cfg: EngineConfig): EngineState
    requires ValidConfig(cfg)
  {
    var changes := Changes(s.shadow.bids, bids, Bid) + Changes(s.shadow.asks, asks, Ask);
    var changed := s.(lastEvent := Some(time), shadow := ShadowUpdate(s.shadow, bids, asks, id));
    CrossChecked(LevelsTaken(changed, changes, time, cfg))
  }

  /** Flow, interval and heatmap. */
  function FlowTaken(s: EngineState, t: Trade, cfg: EngineConfig): EngineState
    requires ValidConfig(cfg)
  {
    s.(lastEvent := Some(t.tradeTime), grid := H.Landed(s.grid, H.Traded(t.tradeTime, t), ScaleOf(cfg)),
    flow := FlowAfter(s.flow, t, cfg.intervals), interval := IntervalAfter(s.interval, t))
  }

  function IntervalAfter(i: Interval, t: Trade): Interval {
    i.(tradeVolume := i.tradeVolume + t.quantity, buyVolume := i.buyVolume + BuyQuantity(t),
    sellVolume := i.sellVolume + SellQuantity(t), delta := i.delta + Signed(t))
  }

  function LargeChecked(s: EngineState, t: Trade, cfg: EngineConfig): EngineState
    requires ValidConfig(cfg)
  {
    if t.quantity < cfg.largeThreshold then s
    else
      s.(session := s.session.(largeTrades := s.session.largeTrades + 1),
      flow := s.flow.(volumeByPrice := LargeAfter(s.flow.volumeByPrice, t.price)),
      interval := s.interval.(largeTrades := s.interval.largeTrades + 1),
      grid := H.Landed(s.grid, H.LargeTraded(t.tradeTime, t), ScaleOf(cfg)))
  }

  /** The sweep in the cluster that the trade closes. */
  function SweepBy(s: EngineState, t: Trade, cfg: EngineConfig): Option<S.Sweep>
    requires ValidConfig(cfg)
  {
    if C.Closes(s.open, t, cfg.proximity) then S.CandidateOf(s.open.value, cfg.sweep) else None
  }

  function Clustered(s: EngineState, t: Trade, cfg: EngineConfig): EngineState
    requires ValidConfig(cfg)
  {
    var sweep := SweepBy(s, t, cfg);
    var next := s.(open := Some(C.Joined(s.open, t, cfg.proximity)),
                   closed := if C.Closes(s.open, t, cfg.proximity) then s.closed + [s.open.value] else s.closed);
    if sweep.None? then next
    else
      next.(session := s.session.(sweeps := s.session.sweeps + 1),
            interval := s.interval.(sweeps := s.interval.sweeps + 1),
      grid := H.Landed(s.grid, H.Swept(sweep.value.end, sweep.value.lastPrice), ScaleOf(cfg)))
  }

  /** The detector is asked only with a ready, uncrossed book that has a price on the aggressor's side. */
  predicate AsksAbsorption(s: EngineState, t: Trade) {
    && s.shadow.ready && !Crossed(s.shadow)
    && (if t.aggressor == Buy then s.shadow.bids != map[] else s.shadow.asks != map[])
  }

  /** Best price on the aggressor's side. */
  function BestFor(s: ShadowState, t: Trade): nat {
    var best := if t.aggressor == Buy then GreatestKey(s.bids.Keys) else LeastKey(s.asks.Keys);
    if best.Some? then best.value else 0
  }

  function OpposingDepth(s: ShadowState, t: Trade, cfg: EngineConfig): nat {
    if t.aggressor == Buy then DepthOf(s, cfg.depth).1 else DepthOf(s, cfg.depth).0
  }

  function AbsorptionChecked(s: EngineState, t: Trade, cfg: EngineConfig): EngineState
    requires ValidConfig(cfg)
  {
    if !AsksAbsorption(s, t) then s
    else
      var asked := s.(absorption := A.Asked(s.absorption, t, BestFor(s.shadow, t), OpposingDepth(s.shadow, t, cfg),
                                            cfg.absorption));
      var found := A.Found(s.absorption, t, cfg.absorption);
      if found.None? then asked
      else
        asked.(interval := s.interval.(absorptions := s.interval.absorptions + 1),
        grid := H.Landed(s.grid, H.Absorbed(found.value.window.closeAt, found.value.window.price), ScaleOf(cfg)))
  }

  function TradeTaken(s: EngineState, t: Trade, cfg: EngineConfig): EngineState
    requires ValidConfig(cfg)
  {
    AbsorptionChecked(Clustered(LargeChecked(FlowTaken(s, t, cfg), t, cfg), t, cfg), t, cfg)
  }

  function Spacing(cfg: EngineConfig): nat {
    if cfg.snapshotInterval < 1 then 1 else cfg.snapshotInterval
  }

  predicate Due(last: Option<nat>, time: nat, cfg: EngineConfig) {
    last.None? || (time >= last.value && time - last.value >= Spacing(cfg))
  }

  function SnapshotAt(s: EngineState, time: nat, cfg: EngineConfig): MarketSnapshot {
    MarketSnapshot(time, s.shadow.ready, BestOf(s.shadow).0, BestOf(s.shadow).1, MidPriceOf(s.shadow),
                   SpreadOf(s.shadow), MicropriceOf(s.shadow.bids, s.shadow.asks, s.shadow.ready),
                   DepthOf(s.shadow, cfg.depth), ImbalanceOf(s.shadow, cfg.depth), s.interval, s.flow.totals.cvd,
                   s.liquidity.added, s.liquidity.removed, s.crossed || Crossed(s.shadow))
  }

  function BestOf(s: ShadowState): (Option<nat>, Option<nat>) {
    (GreatestKey(s.bids.Keys), LeastKey(s.asks.Keys))
  }

  /** After a snapshot the interval counters start again. */
  function Reset(s: EngineState, time: nat): EngineState {
    s.(lastSnapshot := Some(time), interval := EmptyInterval, crossed := false,
    liquidity := s.liquidity.(added := 0, removed := 0))
  }

  /** The state before any snapshot of the event is taken. */
  function Taken(s: EngineState, x: MarketEvent, cfg: EngineConfig): EngineState
    requires ValidConfig(cfg)
  {
    match x
    case Synchronized => s.(shadow := ShadowReady(s.shadow, true))
    case BookSnapshot(id, bids, asks) => BookSeeded(s, id, bids, asks)
    case BookUpdated(id, time, bids, asks) => BookChanged(s, id, time, bids, asks, cfg)
    case ResyncStarted => BookLost(s)
    case ResyncCompleted => s
    case TradeEvent(t) => TradeTaken(s, t, cfg)
    case ConnectionChanged(connected) => if connected then s else Anomalous(s)
  }

  /** The time at which an event may finalize a snapshot. */
  function SnapshotTime(x: MarketEvent): Option<nat> {
    match x
    case BookUpdated(_, time, _, _) => Some(time)
    case TradeEvent(t) => Some(t.tradeTime)
    case _ => None
  }

  predicate Finalizes(s: EngineState, x: MarketEvent, cfg: EngineConfig) {
    SnapshotTime(x).Some? && Due(s.lastSnapshot, SnapshotTime(x).value, cfg)
  }

  function PrunedAt(s: EngineState, now: nat, cfg: EngineConfig): EngineState {
    s.(grid := H.From(s.grid, Saturating(now, cfg.retention)),
    closed := s.closed[C.Expired(s.closed, Saturating(now, cfg.retention))..],
    liquidity := Liquidity.Pruned(s.liquidity, now, cfg.window, cfg.retention),
    flow := s.flow.(completed := Retained(s.flow.completed, now, cfg.retention)))
  }

  function PruneTime(s: EngineState, x: MarketEvent): nat {
    if SnapshotTime(x).Some? then SnapshotTime(x).value else if s.lastEvent.Some? then s.lastEvent.value else 0
  }

  function Processed(s: EngineState, x: MarketEvent, cfg: EngineConfig): EngineState
    requires ValidConfig(cfg)
  {
    var taken := Taken(s, x, cfg);
    var settled := if Finalizes(taken, x, cfg) then Reset(taken, SnapshotTime(x).value) else taken;
    PrunedAt(settled, PruneTime(settled, x), cfg)
  }

  function Finalized(s: EngineState, x: MarketEvent, cfg: EngineConfig): seq<MarketSnapshot>
    requires ValidConfig(cfg)
  {
    var taken := Taken(s, x, cfg);
    if Finalizes(taken, x, cfg) then [SnapshotAt(taken, SnapshotTime(x).value, cfg)] else []
  }

  class AnalyticsEngine {
    const cfg: EngineConfig
    const book: ShadowBook
    const flow: TradeFlow
    const liquidity: LiquidityTracker
    const clusters: C.ClusterTracker
    const sweeps: S.SweepDetector
    const absorption: A.AbsorptionDetector
    const heatmap: H.Heatmap
    var largeTrades: nat
    var interval: Interval
    var lastEvent: Option<nat>
    var lastSnapshot: Option<nat>
    var crossed: bool

    ghost predicate Valid()
      reads this, flow, clusters, heatmap
    {
      && ValidConfig(cfg) && flow.Valid() && clusters.Valid() && heatmap.Valid() && heatmap.aggregation == 1
      && flow.intervals == cfg.intervals && flow.retentionMs == cfg.retention
      && liquidity.window == cfg.window && liquidity.retention == cfg.retention
      && clusters.proximity == cfg.proximity && clusters.retention == cfg.retention
      && sweeps.cfg == cfg.sweep && absorption.cfg == cfg.absorption
      && heatmap.width == cfg.cellWidth && heatmap.retention == cfg.retention
    }

    ghost function View(): EngineState
      reads this, book, flow, liquidity, clusters, sweeps, absorption, heatmap
    {
      EngineState(book.View(), flow.View(), liquidity.View(), absorption.View(), clusters.open,
                  clusters.closed, heatmap.buckets, Session(largeTrades, sweeps.count), interval, lastEvent,
                  lastSnapshot, crossed)
    }

    constructor (cfg: EngineConfig)
      requires ValidConfig(cfg)
      ensures Valid() && View() == FreshEngine && this.cfg == cfg
      ensures fresh({this, book, flow, liquidity, clusters, sweeps, absorption, heatmap})
    {
      this.cfg := cfg;
      book := new ShadowBook();
      flow := new TradeFlow(cfg.intervals, cfg.retention);
      liquidity := new LiquidityTracker(cfg.window, cfg.retention);
      clusters := new C.ClusterTracker(cfg.proximity, cfg.retention);
      sweeps := new S.SweepDetector(cfg.sweep);
      absorption := new A.AbsorptionDetector(cfg.absorption);
      heatmap := new H.Heatmap(cfg.cellWidth, cfg.retention);
      largeTrades, interval := 0, EmptyInterval;
      lastEvent, lastSnapshot, crossed := None, None, false;
    }

    method ProcessEvent(x: MarketEvent) returns (snapshots: seq<MarketSnapshot>)
      requires Valid()
      modifies this, book, flow, liquidity, clusters, sweeps, absorption, heatmap
      ensures Valid() && View() == Processed(old(View()), x, cfg)
      ensures snapshots == Finalized(old(View()), x, cfg)
    {
      hide Taken, SnapshotAt, Reset, PrunedAt, Due, ValidConfig;
      Take(x);
      snapshots := [];
      match x {
        case BookUpdated(_, time, _, _) => snapshots := MaybeFinalize(time);
        case TradeEvent(t) => snapshots := MaybeFinalize(t.tradeTime);
        case _ =>
      }
      var now := match x
        case TradeEvent(t) => t.tradeTime
        case BookUpdated(_, time, _, _) => time
        case _ => if lastEvent.Some? then lastEvent.value else 0;
      Prune(now);
    }

    /** What the event does to the parts, before a snapshot is due. */
    method Take(x: MarketEvent)
      requires Valid()
      modifies this, book, flow, liquidity, clusters, sweeps, absorption, heatmap
      ensures Valid() && View() == Taken(old(View()), x, cfg)
    {
      hide BookSeeded, BookChanged, TradeTaken, ShadowReady, Cleared, ValidConfig;
      match x {
        case Synchronized => book.SetReady(true);
        case BookSnapshot(id, bids, asks) => OnBookSnapshot(id, bids, asks);
        case BookUpdated(id, time, bids, asks) => OnBookUpdated(id, time, bids, asks);
        case ResyncStarted =>
          book.SetReady(false);
          liquidity.Clear();
        case ResyncCompleted =>
        case TradeEvent(t) => OnTrade(t);
        case ConnectionChanged(connected) =>
          if !connected { interval := interval.(anomalies := interval.anomalies + 1); }
      }
    }

    method OnBookSnapshot(id: nat, bids: seq<Level>, asks: seq<Level>)
      requires Valid()
      modifies this, book, liquidity
      ensures Valid() && View() == BookSeeded(old(View()), id, bids, asks)
    {
      hide ShadowSnapshot, Cleared, ValidConfig;
      book.ApplySnapshot(bids, asks, id);
      liquidity.Clear();
      crossed := book.IsCrossed();
      if crossed {
        var _ := book.RecordCrossed();
        interval := interval.(anomalies := interval.anomalies + 1);
      }
    }

    method OnBookUpdated(id: nat, time: nat, bids: seq<Level>, asks: seq<Level>)
      requires Valid()
      modifies this, book, liquidity, absorption, heatmap
      ensures Valid() && View() == BookChanged(old(View()), id, time, bids, asks, cfg)
    {
      hide Changes, Overlay, LevelTaken;
      lastEvent := Some(time);
      var changes := book.ApplyUpdate(bids, asks, id);
      ghost var changed := View();
      for i := 0 to |changes|
        invariant Valid()
        invariant LevelsTaken(View(), changes[i..], time, cfg) == LevelsTaken(changed, changes, time, cfg)
      {
        assert changes[i..][1..] == changes[i + 1..];
        OnLevelChange(changes[i], time);
      }
      CheckCrossed();
    }

    method OnLevelChange(c: LevelChange, time: nat)
      requires Valid()
      modifies this, liquidity, absorption, heatmap
      ensures Valid() && View() == LevelTaken(old(View()), c, time, cfg)
    {
      hide Observed, H.Landed, WindowsAfter, ValidConfig;
      ghost var matches := Matches(liquidity.View(), c, time, cfg.window);
      var events := liquidity.OnLevelChange(c, time);
      assert forall k | 0 <= k < |events| :: events[k].Replenished? <==> matches && k == 1;
      assert matches ==> |events| == 2 && events[1].key.price == c.price && events[1].time == time;
      heatmap.OnLevelChange(c, time);
      WatchAbsorption(c, time);
      ghost var shown := View();
      for i := 0 to |events|
        invariant Valid()
        invariant View() == if matches && i == 2 then Refilled(shown, c.price, time, cfg) else shown
      {
        if events[i].Replenished? {
          heatmap.OnReplenishment(events[i].key.price, events[i].time);
          interval := interval.(replenishments := interval.replenishments + 1);
        }
      }
    }

    method WatchAbsorption(c: LevelChange, time: nat)
      requires Valid()
      modifies absorption
      ensures Valid() && View() == old(View()).(absorption := WindowsAfter(old(absorption.View()), c, time, cfg))
    {
      hide ValidConfig;
      if c.newQuantity > Was(c.oldQuantity) {
        absorption.OnLiquidityChange(c.price, c.newQuantity, time);
      }
      absorption.OnOpposingLiquidity(c.price, c.newQuantity, time);
    }

    method CheckCrossed()
      requires Valid()
      modifies this, book
      ensures Valid() && View() == CrossChecked(old(View()))
    {
      hide ValidConfig;
      if book.IsCrossed() {
        if !crossed {
          var _ := book.RecordCrossed();
          interval := interval.(anomalies := interval.anomalies + 1);
        }
        crossed := true;
      } else {
        crossed := false;
      }
    }

    method OnTrade(t: Trade)
      requires Valid()
      modifies this, flow, clusters, sweeps, absorption, heatmap
      ensures Valid() && View() == TradeTaken(old(View()), t, cfg)
    {
      hide FlowTaken, LargeChecked, Clustered, AbsorptionChecked;
      CountFlow(t);
      CheckLarge(t);
      CheckCluster(t);
      CheckAbsorption(t);
    }

    method CountFlow(t: Trade)
      requires Valid()
      modifies this, flow, heatmap
      ensures Valid() && View() == FlowTaken(old(View()), t, cfg)
    {
      hide H.Landed, FlowAfter, TotalsAfter, VolumeAfter, LaneStepped;
      lastEvent := Some(t.tradeTime);
      heatmap.OnTrade(t);
      var _ := flow.OnTrade(t);
      interval := interval.(tradeVolume := interval.tradeVolume + t.quantity);
      match t.aggressor {
        case Buy =>
          interval := interval.(delta := interval.delta + t.quantity, buyVolume := interval.buyVolume + t.quantity);
        case Sell =>
          interval := interval.(delta := interval.delta - t.quantity, sellVolume := interval.sellVolume + t.quantity);
      }
    }

    method CheckLarge(t: Trade)
      requires Valid()
      modifies this, flow, heatmap
      ensures Valid() && View() == LargeChecked(old(View()), t, cfg)
    {
      hide H.Landed, LargeAfter, FlowNext, ValidConfig;
      if t.quantity >= cfg.largeThreshold {
        flow.RecordLargeTrade(t.price);
        largeTrades := largeTrades + 1;
        interval := interval.(largeTrades := interval.largeTrades + 1);
        heatmap.OnLargeTrade(t);
      }
    }

    method CheckCluster(t: Trade)
      requires Valid()
      modifies this, clusters, sweeps, heatmap
      ensures Valid() && View() == Clustered(old(View()), t, cfg)
    {
      hide H.Landed, C.Joined, C.Fits;
      var cluster := clusters.OnTrade(t);
      if cluster.Some? {
        var sweep := sweeps.OnCluster(cluster.value);
        if sweep.Some? {
          interval := interval.(sweeps := interval.sweeps + 1);
          heatmap.OnSweep(sweep.value.lastPrice, sweep.value.end);
        }
      }
    }

    method CheckAbsorption(t: Trade)
      requires Valid()
      modifies this, absorption, heatmap
      ensures Valid() && View() == AbsorptionChecked(old(View()), t, cfg)
    {
      hide H.Landed, A.Asked, A.Found, DepthOf;
      if book.ready && !book.IsCrossed() {
        var best := if t.aggressor == Buy then book.BestBid() else book.BestAsk();
        if best.Some? {
          var opposing := if t.aggressor == Buy then book.DepthVolume(cfg.depth).1 else book.DepthVolume(cfg.depth).0;
          var found := absorption.OnTrade(t, best.value, opposing);
          if found.Some? {
            interval := interval.(absorptions := interval.absorptions + 1);
            heatmap.OnAbsorption(found.value.window.price, found.value.window.closeAt);
          }
        }
      }
    }

    /** A snapshot when the snapshot interval has passed. */
    method MaybeFinalize(time: nat) returns (snapshots: seq<MarketSnapshot>)
      requires Valid()
      modifies this, liquidity
      ensures Valid()
      ensures View() == if Due(old(lastSnapshot), time, cfg) then Reset(old(View()), time) else old(View())
      ensures snapshots == if Due(old(lastSnapshot), time, cfg) then [SnapshotAt(old(View()), time, cfg)] else []
    {
      var spacing := if cfg.snapshotInterval < 1 then 1 else cfg.snapshotInterval;
      var needs := lastSnapshot.None?
        || (if time < lastSnapshot.value then 0 else time - lastSnapshot.value) >= spacing;
      snapshots := [];
      if needs {
        lastSnapshot := Some(time);
        var snapshot := BuildSnapshot(time);
        snapshots := [snapshot];
      }
    }

    /** A snapshot at the end of a run, whenever the last one was. */
    method ForceSnapshot() returns (snapshot: Option<MarketSnapshot>)
      requires Valid()
      modifies this, liquidity
      ensures Valid()
      ensures View() == if old(lastEvent).None? then old(View()) else Reset(old(View()), old(lastEvent).value)
      ensures snapshot ==
        if old(lastEvent).None? then None else Some(SnapshotAt(old(View()), old(lastEvent).value, cfg))
    {
      if lastEvent.None? { return None; }
      lastSnapshot := lastEvent;
      var built := BuildSnapshot(lastEvent.value);
      snapshot := Some(built);
    }

    method BuildSnapshot(time: nat) returns (snapshot: MarketSnapshot)
      requires Valid() && lastSnapshot == Some(time)
      modifies this, liquidity
      ensures Valid() && View() == Reset(old(View()), time)
      ensures snapshot == SnapshotAt(old(View()), time, cfg)
    {
      hide DepthOf, MidPriceOf, SpreadOf, ImbalanceOf, MicropriceOf, ValidConfig;
      snapshot := MarketSnapshot(time, book.ready, book.BestBid(), book.BestAsk(), book.MidPrice(), book.Spread(),
                                 book.BookMicroprice(), book.DepthVolume(cfg.depth), book.Imbalance(cfg.depth),
                                 interval, flow.totals.cvd, liquidity.added, liquidity.removed,
                                 crossed || book.IsCrossed());
      interval := EmptyInterval;
      crossed := false;
      liquidity.ResetInterval();
    }

    method Prune(now: nat)
      requires Valid()
      modifies heatmap, clusters, liquidity, flow
      ensures Valid() && View() == PrunedAt(old(View()), now, cfg)
    {
      hide H.From, Liquidity.Pruned, C.Expired, Saturating, ValidConfig, Retained;
      PruneGrid(now);
      PruneClosed(now);
      PruneRest(now);
    }

    method PruneRest(now: nat)
      requires Valid()
      modifies liquidity, flow
      ensures Valid()
      ensures View() ==
        old(View()).(liquidity := Liquidity.Pruned(old(liquidity.View()), now, cfg.window, cfg.retention),
                     flow := old(flow.View()).(completed := Retained(old(flow.completed), now, cfg.retention)))
    {
      hide Liquidity.Pruned, ValidConfig, Retained;
      liquidity.Prune(now);
      PruneFlow(now);
    }

    method PruneFlow(now: nat)
      requires Valid()
      modifies flow
      ensures Valid()
      ensures View() ==
        old(View()).(flow := old(flow.View()).(completed := Retained(old(flow.completed), now, cfg.retention)))
    {
      hide ValidConfig, Retained, Outdated, FlowNext;
      flow.Prune(now);
    }

    method PruneGrid(now: nat)
      requires Valid()
      modifies heatmap
      ensures Valid() && View() == old(View()).(grid := H.From(old(heatmap.buckets), Saturating(now, cfg.retention)))
    {
      hide H.From, Saturating, ValidConfig;
      heatmap.Prune(now);
    }

    method PruneClosed(now: nat)
      requires Valid()
      modifies clusters
      ensures Valid()
      ensures var cutoff := Saturating(now, cfg.retention);
        View() == old(View()).(closed := old(clusters.closed)[C.Expired(old(clusters.closed), cutoff)..])
    {
      hide C.Expired, Saturating, ValidConfig;
      clusters.Prune(now);
    }
  }

}
