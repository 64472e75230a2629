/** The time buckets of the analytics engine over whole runs of events. */
module EngineFlow {
  import opened Arithmetic
  import opened Engine
  import opened Flow
  import opened FlowBatches
  import opened FlowRuns
  import opened Liquidity
  import opened Options
  import opened OrderBooks
  import opened Shadow
  import opened Wire
  import A = Absorption
  import C = Clusters
  import H = Heatmaps
  import R = EngineRuns

  ghost predicate Keyed(open: map<BucketKey, TimeBucket>) {
    forall k | k in open :: open[k].interval == k.interval && open[k].start == k.start
  }

  /** Among all open buckets a step changes the lane of its own interval only. */
  lemma SingleBucket(b: TimeBucket, i: nat)
    ensures OfInterval([b], i) == OnlyOf(b, i) && OfInterval([], i) == []
  {
    assert [b][..0] == [];
  }

  lemma OpenedLanes(open: map<BucketKey, TimeBucket>, cvd: int, interval: nat, start: nat, i: nat)
    requires Keyed(open)
    ensures var (after, closed) := BucketOpened(open, cvd, interval, start);
      && Keyed(after)
      && (if i == interval
          then (Lane(after, i), OfInterval(closed, i)) == Opened(Lane(open, i), cvd, i, start)
          else Lane(after, i) == Lane(open, i) && OfInterval(closed, i) == [])
  {
    var key, empty := BucketKey(interval, start), EmptyBucket(interval, start);
    LaneLookups(open, interval);
    SingleBucket(empty, i);
    hide Lane, OfInterval;
    if key !in open {
      var previous := Previous(Lane(open, interval), start);
      if previous.None? {
        LaneSet(open, key, empty, i);
      } else {
        var last := BucketKey(interval, previous.value);
        LaneRemove(open, last, i);
        LaneSet(open - {last}, key, empty, i);
        var bucket := open[last].(end := start, cvdEnd := cvd);
        SingleBucket(bucket, i);
      }
    }
  }

  lemma StepLanes(open: map<BucketKey, TimeBucket>, cvd: int, interval: nat, t: Trade, i: nat)
    requires Keyed(open) && interval > 0
    ensures var (after, closed) := IntervalStep(open, cvd, interval, t);
      Keyed(after) && LaneStepped(open, after, closed, [interval], cvd, i, t)
  {
    hide BucketOpened, Opened, Lane, OfInterval;
    var start := StartOf(t.tradeTime, interval);
    var key, current := BucketKey(interval, start), BucketOpened(open, cvd, interval, start).0;
    OpenedLanes(open, cvd, interval, start, i);
    OpenedLanes(open, cvd, interval, start, interval);
    LaneLookups(current, interval);
    LaneSet(current, key, BucketAfter(current[key], t), i);
  }

  ghost predicate Apart(intervals: seq<nat>) {
    && (forall i | 0 <= i < |intervals| :: intervals[i] > 0)
    && (forall i, j | 0 <= i < j < |intervals| :: intervals[i] != intervals[j])
  }

  lemma {:induction false} StepsLanes(open: map<BucketKey, TimeBucket>, cvd: int, intervals: seq<nat>, t: Trade, i: nat)
    requires Keyed(open) && Apart(intervals)
    ensures var (after, closed) := IntervalsStep(open, cvd, intervals, t);
      Keyed(after) && LaneStepped(open, after, closed, intervals, cvd, i, t)
    decreases |intervals|
  {
    hide IntervalStep, LaneStepped, Keyed;
    if intervals == [] {
      NoStep(open, cvd, t, i);
    } else {
      var front, last := intervals[..|intervals| - 1], intervals[|intervals| - 1];
      assert intervals == front + [last];
      StepsLanes(open, cvd, front, t, i);
      var (before, closed) := IntervalsStep(open, cvd, front, t);
      var (after, more) := IntervalStep(before, cvd, last, t);
      StepLanes(before, cvd, last, t, i);
      LastApart(intervals);
      StepsJoin(open, before, after, closed, more, front, last, cvd, t, i);
    }
  }

  lemma NoStep(open: map<BucketKey, TimeBucket>, cvd: int, t: Trade, i: nat)
    ensures LaneStepped(open, open, [], [], cvd, i, t)
  {
  }

  lemma StepsJoin(open: map<BucketKey, TimeBucket>, before: map<BucketKey, TimeBucket>,
                  after: map<BucketKey, TimeBucket>, closed: seq<TimeBucket>, more: seq<TimeBucket>, front: seq<nat>,
                  last: nat, cvd: int, t: Trade, i: nat)
    requires LaneStepped(open, before, closed, front, cvd, i, t) && last !in front
    requires LaneStepped(before, after, more, [last], cvd, i, t)
    ensures LaneStepped(open, after, closed + more, front + [last], cvd, i, t)
  {
    hide LaneStep, Lane, OfInterval;
    OfIntervalConcat(closed, more, i);
    assert i in front + [last] <==> i in front || i == last;
  }

  lemma LastApart(intervals: seq<nat>)
    requires Apart(intervals) && intervals != []
    ensures intervals[|intervals| - 1] !in intervals[..|intervals| - 1]
  {
  }

  /** Everything that the trades of a run closed is pruned or completed, in the order in which it was closed;
      what they left open is open. */
  ghost predicate BucketsHold(f: FlowState, pruned: seq<TimeBucket>, trades: seq<Trade>, intervals: seq<nat>)
    requires Apart(intervals)
  {
    && Keyed(f.open) && TotalsHold(f, trades)
    && forall i | i in intervals :: LaneRun(trades, i) == (Lane(f.open, i), OfInterval(pruned + f.completed, i))
  }

  /** What the run has pruned of the completed buckets. */
  function Pruned(inputs: seq<R.Input>, cfg: EngineConfig, n: nat): seq<TimeBucket>
    requires ValidConfig(cfg) && n <= |inputs|
  {
    if n == 0 then []
    else Pruned(inputs, cfg, n - 1) + PrunedBy(R.Run(FreshEngine, inputs, cfg, n - 1), inputs[n - 1], cfg)
  }

  function PrunedBy(s: EngineState, input: R.Input, cfg: EngineConfig): seq<TimeBucket>
    requires ValidConfig(cfg)
  {
    if input.Force? then []
    else
      var taken := Taken(s, input.x, cfg);
      Outdated(taken.flow.completed, PruneTime(taken, input.x), cfg.retention)
  }

  function TradesIn(inputs: seq<R.Input>, n: nat): seq<Trade>
    requires n <= |inputs|
  {
    if n == 0 then [] else TradesIn(inputs, n - 1) + TradeIn(inputs[n - 1])
  }

  function TradeIn(input: R.Input): seq<Trade> {
    if input.Event? && input.x.TradeEvent? then [input.x.trade] else []
  }

  /** The flow before and after pruning. */
  function FlowTook(f: FlowState, input: R.Input, cfg: EngineConfig): FlowState
    requires ValidConfig(cfg)
  {
    if TradeIn(input) == [] then f
    else
      var t := input.x.trade;
      var after := FlowAfter(f, t, cfg.intervals);
      if t.quantity < cfg.largeThreshold then after
      else after.(volumeByPrice := LargeAfter(after.volumeByPrice, t.price))
  }

  lemma TakenFlow(s: EngineState, x: MarketEvent, cfg: EngineConfig)
    requires ValidConfig(cfg)
    ensures Taken(s, x, cfg).flow == FlowTook(s.flow, R.Event(x), cfg)
  {
    hide FlowAfter, LargeAfter, H.Landed, Clustered, AbsorptionChecked, BookChanged, BookSeeded;
    match x {
      case TradeEvent(t) =>
        ClusteredFlow(LargeChecked(FlowTaken(s, t, cfg), t, cfg), t, cfg);
      case BookUpdated(id, time, bids, asks) =>
        ChangedFlow(s, id, time, bids, asks, cfg);
      case BookSnapshot(id, bids, asks) =>
        SeededFlow(s, id, bids, asks);
      case _ =>
    }
  }

  lemma ClusteredFlow(s: EngineState, t: Trade, cfg: EngineConfig)
    requires ValidConfig(cfg)
    ensures AbsorptionChecked(Clustered(s, t, cfg), t, cfg).flow == s.flow
  {
    hide H.Landed, SweepBy, C.Joined, C.Closes, AsksAbsorption, A.Asked, A.Found, BestFor, OpposingDepth;
  }

  lemma SeededFlow(s: EngineState, id: nat, bids: seq<Level>, asks: seq<Level>)
    ensures BookSeeded(s, id, bids, asks).flow == s.flow
  {
  }

  lemma ChangedFlow(s: EngineState, id: nat, time: nat, bids: seq<Level>, asks: seq<Level>, cfg: EngineConfig)
    requires ValidConfig(cfg)
    ensures BookChanged(s, id, time, bids, asks, cfg).flow == s.flow
  {
    hide Changes, Overlay, LevelsTaken, Crossed;
    var changes := Changes(s.shadow.bids, bids, Bid) + Changes(s.shadow.asks, asks, Ask);
    LevelsFlow(s.(lastEvent := Some(time), shadow := ShadowUpdate(s.shadow, bids, asks, id)), changes, time, cfg);
  }

  lemma {:induction false} LevelsFlow(s: EngineState, changes: seq<LevelChange>, time: nat, cfg: EngineConfig)
    requires ValidConfig(cfg)
    ensures LevelsTaken(s, changes, time, cfg).flow == s.flow
    decreases |changes|
  {
    hide H.Landed, Observed, Matches, WindowsAfter;
    if changes != [] { LevelsFlow(LevelTaken(s, changes[0], time, cfg), changes[1..], time, cfg); }
  }

  lemma NextFlow(s: EngineState, input: R.Input, cfg: EngineConfig)
    requires ValidConfig(cfg)
    ensures input.Force? ==> R.Next(s, input, cfg).flow == s.flow
    ensures input.Event? ==>
      var took, now := FlowTook(s.flow, input, cfg), PruneTime(Taken(s, input.x, cfg), input.x);
      R.Next(s, input, cfg).flow == took.(completed := Retained(took.completed, now, cfg.retention))
  {
    hide Taken, FlowTook, Retained, Due, H.From, C.Expired, Saturating, Liquidity.Pruned;
    if input.Event? { TakenFlow(s, input.x, cfg); }
  }

  lemma TookHolds(f: FlowState, pruned: seq<TimeBucket>, trades: seq<Trade>, input: R.Input, cfg: EngineConfig)
    requires ValidConfig(cfg) && BucketsHold(f, pruned, trades, cfg.intervals)
    ensures BucketsHold(FlowTook(f, input, cfg), pruned, trades + TradeIn(input), cfg.intervals)
  {
    hide OfInterval, Lane, LaneStep, IntervalsStep, TotalsRun, TotalsAfter, VolumeAfter, Plain, Keyed;
    if TradeIn(input) == [] {
      assert trades + [] == trades;
    } else {
      var t := input.x.trade;
      var all, after := trades + [t], FlowAfter(f, t, cfg.intervals);
      assert all[..|trades|] == trades;
      var (open, closed) := IntervalsStep(f.open, after.totals.cvd, cfg.intervals, t);
      StepsLanes(f.open, after.totals.cvd, cfg.intervals, t, 0);
      TradeKeepsTotals(f, trades, t, cfg.intervals);
      if t.quantity >= cfg.largeThreshold { LargeKeepsTotals(after, all, t.price); }
      forall i | i in cfg.intervals
        ensures LaneRun(all, i) == (Lane(open, i), OfInterval(pruned + after.completed, i))
      {
        StepsLanes(f.open, after.totals.cvd, cfg.intervals, t, i);
        assert pruned + after.completed == (pruned + f.completed) + closed;
        OfIntervalConcat(pruned + f.completed, closed, i);
      }
    }
  }

  lemma TradeKeepsTotals(f: FlowState, trades: seq<Trade>, t: Trade, intervals: seq<nat>)
    requires Apart(intervals) && TotalsHold(f, trades)
    ensures var after := FlowAfter(f, t, intervals);
      TotalsHold(after, trades + [t]) && after.totals.cvd == Total(trades + [t], Net)
  {
    hide IntervalsStep;
    var after := FlowAfter(f, t, intervals);
    TotalsAppend(trades, t);
    assert Plain(VolumeAfter(f.volumeByPrice, t)) == VolumeAfter(Plain(f.volumeByPrice), t);
    CvdHolds(after, trades + [t]);
  }

  lemma LargeKeepsTotals(f: FlowState, trades: seq<Trade>, price: nat)
    requires TotalsHold(f, trades)
    ensures TotalsHold(f.(volumeByPrice := LargeAfter(f.volumeByPrice, price)), trades)
  {
    hide TotalsRun;
    assert Plain(LargeAfter(f.volumeByPrice, price)) == Plain(f.volumeByPrice);
  }

  /** Over every run of the engine, whatever events come in between: totals and profile are those of its
      trades, every configured interval has exactly the open buckets that its own trades leave open, and what
      was pruned and what is completed is, in order, exactly what these trades closed. */
  lemma {:induction false} EngineBucketsHold(inputs: seq<R.Input>, cfg: EngineConfig, n: nat)
    requires ValidConfig(cfg) && n <= |inputs|
    ensures BucketsHold(R.Run(FreshEngine, inputs, cfg, n).flow, Pruned(inputs, cfg, n), TradesIn(inputs, n),
                        cfg.intervals)
  {
    hide BucketsHold, PrunedBy, TradeIn, R.Next;
    if n == 0 {
      NothingHolds(cfg.intervals);
    } else {
      EngineBucketsHold(inputs, cfg, n - 1);
      InputHolds(R.Run(FreshEngine, inputs, cfg, n - 1), Pruned(inputs, cfg, n - 1), TradesIn(inputs, n - 1),
                 inputs[n - 1], cfg);
    }
  }

  /** With nondecreasing trade times these are the buckets of the batch grouping: one open bucket an interval,
      and the pruned and completed ones tile the time before it. */
  lemma EngineBucketsAreBatches(inputs: seq<R.Input>, cfg: EngineConfig, n: nat, interval: nat)
    requires ValidConfig(cfg) && n <= |inputs| && interval in cfg.intervals
    requires Chronological(TradesIn(inputs, n))
    ensures interval > 0
    ensures var f := R.Run(FreshEngine, inputs, cfg, n).flow;
      Batched(Lane(f.open, interval), OfInterval(Pruned(inputs, cfg, n) + f.completed, interval), TradesIn(inputs, n),
              interval)
  {
    hide R.Run, Pruned, TradesIn, Batched, LaneRun, Lane, OfInterval;
    EngineBucketsHold(inputs, cfg, n);
    StreamingEqualsBatch(TradesIn(inputs, n), interval);
  }

  lemma InputHolds(s: EngineState, pruned: seq<TimeBucket>, trades: seq<Trade>, input: R.Input, cfg: EngineConfig)
    requires ValidConfig(cfg) && BucketsHold(s.flow, pruned, trades, cfg.intervals)
    ensures BucketsHold(R.Next(s, input, cfg).flow, pruned + PrunedBy(s, input, cfg), trades + TradeIn(input),
                        cfg.intervals)
  {
    assert Apart(cfg.intervals);
    hide BucketsHold, FlowTook, TradeIn, R.Next, Apart, Taken, Retained, Outdated;
    NextFlow(s, input, cfg);
    if input.Force? {
      ForceTakesNothing(s.flow, input, cfg);
      assert pruned + [] == pruned && trades + [] == trades;
    } else {
      TookHolds(s.flow, pruned, trades, input, cfg);
      TakenFlow(s, input.x, cfg);
      var took, now := FlowTook(s.flow, input, cfg), PruneTime(Taken(s, input.x, cfg), input.x);
      OutdatedIsFront(took.completed, now, cfg.retention);
      PruneHolds(took, R.Next(s, input, cfg).flow, pruned, Outdated(took.completed, now, cfg.retention),
                 trades + TradeIn(input), cfg.intervals);
    }
  }

  lemma ForceTakesNothing(f: FlowState, input: R.Input, cfg: EngineConfig)
    requires ValidConfig(cfg) && input.Force?
    ensures FlowTook(f, input, cfg) == f && TradeIn(input) == []
  {
  }

  lemma NothingHolds(intervals: seq<nat>)
    requires Apart(intervals)
    ensures BucketsHold(EmptyFlow, [], [], intervals)
  {
    assert Plain(map[]) == map[];
    forall i | i in intervals ensures LaneRun([], i) == (Lane(map[], i), OfInterval([] + [], i)) {
      assert Lane(map[], i) == map[];
    }
  }

  lemma PruneHolds(f: FlowState, next: FlowState, pruned: seq<TimeBucket>, more: seq<TimeBucket>, trades: seq<Trade>,
                   intervals: seq<nat>)
    requires Apart(intervals) && BucketsHold(f, pruned, trades, intervals)
    requires next == f.(completed := next.completed) && f.completed == more + next.completed
    ensures BucketsHold(next, pruned + more, trades, intervals)
  {
    hide LaneRun, Lane, OfInterval, TotalsRun, Plain, Keyed;
    assert pruned + more + next.completed == pruned + f.completed;
  }
}
