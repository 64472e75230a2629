/** Trade flow: session totals, volume at price and time buckets (src/analytics/flow.rs). */
module Flow {
  import opened Options
  import opened Ordering
  import opened Sums
  import opened Wire

  datatype FlowTotals = FlowTotals(tradeCount: nat, buyVolume: nat, sellVolume: nat, cvd: int)

  datatype VolumeAtPrice = VolumeAtPrice(
    buyVolume: nat,
    sellVolume: nat,
    totalVolume: nat,
    delta: int,
    tradeCount: nat,
    largeTrades: nat)

  datatype TimeBucket = TimeBucket(
    interval: nat,
    start: nat,
    end: nat,
    buyVolume: nat,
    sellVolume: nat,
    totalVolume: nat,
    delta: int,
    tradeCount: nat,
    cvdEnd: int)

  datatype BucketKey = BucketKey(interval: nat, start: nat)

  datatype FlowState = FlowState(
    totals: FlowTotals,
    volumeByPrice: map<nat, VolumeAtPrice>,
    open: map<BucketKey, TimeBucket>,
    completed: seq<TimeBucket>)

  const EmptyFlow := FlowState(FlowTotals(0, 0, 0, 0), map[], map[], [])

  function BuyQuantity(t: Trade): nat { if t.aggressor == Buy then t.quantity else 0 }

  function SellQuantity(t: Trade): nat { if t.aggressor == Sell then t.quantity else 0 }

  function Signed(t: Trade): int { BuyQuantity(t) - SellQuantity(t) }

  function TotalsAfter(s: FlowTotals, t: Trade): FlowTotals {
    FlowTotals(s.tradeCount + 1, s.buyVolume + BuyQuantity(t), s.sellVolume + SellQuantity(t), s.cvd + Signed(t))
  }

  function ProfileAfter(v: VolumeAtPrice, t: Trade): VolumeAtPrice {
    VolumeAtPrice(v.buyVolume + BuyQuantity(t), v.sellVolume + SellQuantity(t), v.totalVolume + t.quantity,
                  v.delta + Signed(t), v.tradeCount + 1, v.largeTrades)
  }

  function EmptyBucket(interval: nat, start: nat): TimeBucket {
    TimeBucket(interval, start, start + interval, 0, 0, 0, 0, 0, 0)
  }

  function BucketAfter(b: TimeBucket, t: Trade): TimeBucket {
    b.(buyVolume := b.buyVolume + BuyQuantity(t), sellVolume := b.sellVolume + SellQuantity(t),
    totalVolume := b.totalVolume + t.quantity, delta := b.delta + Signed(t), tradeCount := b.tradeCount + 1)
  }

  function StartOf(time: nat, interval: nat): nat
    requires interval > 0
  {
    time - time % interval
  }

  /** The open buckets of one interval, by start. */
  function Lane(open: map<BucketKey, TimeBucket>, interval: nat): map<nat, TimeBucket> {
    map k | k in open.Keys && k.interval == interval :: k.start := open[k]
  }

  /** The newest open bucket that starts before `start`. */
  function Previous(lane: map<nat, TimeBucket>, start: nat): (r: Option<nat>)
    ensures r.None? ==> forall s | s in lane :: s >= start
    ensures r.Some? ==> r.value in lane && r.value < start && forall s | s in lane && s < start :: s <= r.value
  {
    var earlier := set s | s in lane.Keys && s < start;
    assert forall s | s in lane && s < start :: s in earlier;
    GreatestKey(earlier)
  }

  /** The bucket at `start` is opened unless it is open already, which closes the newest open
      bucket before it. */
  function Opened(lane: map<nat, TimeBucket>, cvd: int, interval: nat,
                  start: nat): (r: (map<nat, TimeBucket>, seq<TimeBucket>))
    ensures start in r.0
  {
    if start in lane then (lane, [])
    else
      var previous := Previous(lane, start);
      if previous.None? then (lane[start := EmptyBucket(interval, start)], [])
      else
        ((lane - {previous.value})[start := EmptyBucket(interval, start)],
         [lane[previous.value].(end := start, cvdEnd := cvd)])
  }

  /** A trade for one interval: the open buckets of the interval after it, and what it closed. */
  function LaneStep(lane: map<nat, TimeBucket>, cvd: int, interval: nat,
                    t: Trade): (map<nat, TimeBucket>, seq<TimeBucket>)
    requires interval > 0
  {
    var start := StartOf(t.tradeTime, interval);
    var (current, closed) := Opened(lane, cvd, interval, start);
    (current[start := BucketAfter(current[start], t)], closed)
  }

  /** The same among the open buckets of all intervals. */
  function BucketOpened(open: map<BucketKey, TimeBucket>, cvd: int, interval: nat,
                        start: nat): (r: (map<BucketKey, TimeBucket>, seq<TimeBucket>))
    ensures BucketKey(interval, start) in r.0
  {
    var key := BucketKey(interval, start);
    if key in open then (open, [])
    else
      var previous := Previous(Lane(open, interval), start);
      if previous.None? then (open[key := EmptyBucket(interval, start)], [])
      else
        LaneLookups(open, interval);
        var last := BucketKey(interval, previous.value);
        ((open - {last})[key := EmptyBucket(interval, start)], [open[last].(end := start, cvdEnd := cvd)])
  }

  function IntervalStep(open: map<BucketKey, TimeBucket>, cvd: int, interval: nat,
                        t: Trade): (map<BucketKey, TimeBucket>, seq<TimeBucket>)
    requires interval > 0
  {
    var start := StartOf(t.tradeTime, interval);
    var (current, closed) := BucketOpened(open, cvd, interval, start);
    var key := BucketKey(interval, start);
    (current[key := BucketAfter(current[key], t)], closed)
  }

  /** One interval after the other. */
  function IntervalsStep(open: map<BucketKey, TimeBucket>, cvd: int, intervals: seq<nat>,
                         t: Trade): (map<BucketKey, TimeBucket>, seq<TimeBucket>)
    requires forall i | 0 <= i < |intervals| :: intervals[i] > 0
  {
    if intervals == [] then (open, [])
    else
      var (before, closed) := IntervalsStep(open, cvd, intervals[..|intervals| - 1], t);
      var (after, more) := IntervalStep(before, cvd, intervals[|intervals| - 1], t);
      (after, closed + more)
  }

  /** The whole flow after a trade. */
  function FlowAfter(s: FlowState, t: Trade, intervals: seq<nat>): FlowState
    requires forall i | 0 <= i < |intervals| :: intervals[i] > 0
  {
    var totals := TotalsAfter(s.totals, t);
    var (open, closed) := IntervalsStep(s.open, totals.cvd, intervals, t);
    FlowState(totals, VolumeAfter(s.volumeByPrice, t), open, s.completed + closed)
  }

  function OnlyOf(b: TimeBucket, interval: nat): seq<TimeBucket> {
    if b.interval == interval then [b] else []
  }

  /** The buckets of one interval, in order. */
  function OfInterval(buckets: seq<TimeBucket>, interval: nat): seq<TimeBucket> {
    if buckets == [] then []
    else OfInterval(buckets[..|buckets| - 1], interval) + OnlyOf(buckets[|buckets| - 1], interval)
  }

  lemma LaneSet(open: map<BucketKey, TimeBucket>, k: BucketKey, b: TimeBucket, interval: nat)
    ensures Lane(open[k := b], interval) == LaneWith(open, k, b, interval)
  {
    var after, expected := Lane(open[k := b], interval), LaneWith(open, k, b, interval);
    LaneLookups(open, interval);
    LaneLookups(open[k := b], interval);
    assert after.Keys == expected.Keys;
  }

  lemma LaneRemove(open: map<BucketKey, TimeBucket>, k: BucketKey, interval: nat)
    ensures Lane(open - {k}, interval) == LaneWithout(open, k, interval)
  {
    var after, expected := Lane(open - {k}, interval), LaneWithout(open, k, interval);
    LaneLookups(open, interval);
    LaneLookups(open - {k}, interval);
    assert after.Keys == expected.Keys;
  }

  /** A lane holds the open buckets of its interval and nothing else. */
  lemma LaneLookups(open: map<BucketKey, TimeBucket>, interval: nat)
    ensures forall s :: s in Lane(open, interval) <==> BucketKey(interval, s) in open
    ensures forall s | s in Lane(open, interval) :: Lane(open, interval)[s] == open[BucketKey(interval, s)]
  {
    var lane := Lane(open, interval);
    forall s ensures s in lane <==> BucketKey(interval, s) in open {
      if BucketKey(interval, s) in open {
        var k := BucketKey(interval, s);
        assert k in open.Keys && k.interval == interval && k.start == s;
      }
    }
  }

  class TradeFlow {
    var totals: FlowTotals
    var volumeByPrice: map<nat, VolumeAtPrice>
    var open: map<BucketKey, TimeBucket>
    var completed: seq<TimeBucket>
    const intervals: seq<nat>
    const retentionMs: nat

    ghost function View(): FlowState
      reads this
    {
      FlowState(totals, volumeByPrice, open, completed)
    }

    ghost predicate Valid()
      reads this
    {
      && (forall i | 0 <= i < |intervals| :: intervals[i] > 0)
      && (forall i, j | 0 <= i < j < |intervals| :: intervals[i] != intervals[j])
      && (forall k | k in open :: open[k].interval == k.interval && open[k].start == k.start)
    }

    constructor (intervals: seq<nat>, retentionMs: nat)
      requires forall i | 0 <= i < |intervals| :: intervals[i] > 0
      requires forall i, j | 0 <= i < j < |intervals| :: intervals[i] != intervals[j]
      ensures Valid()
      ensures View() == EmptyFlow
      ensures this.intervals == intervals && this.retentionMs == retentionMs
    {
      this.intervals, this.retentionMs := intervals, retentionMs;
      totals, volumeByPrice, open, completed := FlowTotals(0, 0, 0, 0), map[], map[], [];
    }

    /** Process a trade; returns the buckets it closed. Every configured interval takes its step,
        no other lane changes. */
    method OnTrade(t: Trade) returns (closed: seq<TimeBucket>)
      requires Valid()
      modifies this
      ensures Valid()
      ensures totals == TotalsAfter(old(totals), t)
      ensures volumeByPrice == VolumeAfter(old(volumeByPrice), t)
      ensures completed == old(completed) + closed
      ensures forall i :: LaneStepped(old(open), open, closed, intervals, totals.cvd, i, t)
      ensures View() == FlowAfter(old(View()), t, intervals)
      ensures FlowNext(old(View()), Traded(t), View(), closed, intervals, retentionMs)
    {
      hide TotalsAfter, VolumeAfter, IntervalStep, LaneStep;
      totals := TotalsAfter(totals, t);
      volumeByPrice := VolumeAfter(volumeByPrice, t);
      closed := [];
      for n := 0 to |intervals|
        invariant Valid() && totals == TotalsAfter(old(totals), t)
        invariant volumeByPrice == VolumeAfter(old(volumeByPrice), t)
        invariant completed == old(completed) + closed
        invariant forall i :: LaneStepped(old(open), open, closed, intervals[..n], totals.cvd, i, t)
        invariant (open, closed) == IntervalsStep(old(open), totals.cvd, intervals[..n], t)
      {
        ghost var before, closedBefore := open, closed;
        var bucket := OnInterval(intervals[n], t);
        closed := closed + bucket;
        ghost var done := intervals[..n + 1];
        assert done[..n] == intervals[..n];
        forall i ensures LaneStepped(old(open), open, closed, done, totals.cvd, i, t) {
          assert LaneStepped(old(open), before, closedBefore, intervals[..n], totals.cvd, i, t);
          assert LaneStepped(before, open, bucket, [intervals[n]], totals.cvd, i, t);
          OfIntervalConcat(closedBefore, bucket, i);
          assert i in done <==> i in intervals[..n] || i == intervals[n];
        }
      }
      assert intervals[..|intervals|] == intervals;
    }

    /** One interval: open the bucket of the trade if need be, then accumulate. */
    method OnInterval(interval: nat, t: Trade) returns (closed: seq<TimeBucket>)
      requires Valid() && interval > 0
      modifies this`open, this`completed
      ensures Valid()
      ensures completed == old(completed) + closed
      ensures forall i :: LaneStepped(old(open), open, closed, [interval], totals.cvd, i, t)
      ensures (open, closed) == IntervalStep(old(open), totals.cvd, interval, t)
    {
      var start := StartOf(t.tradeTime, interval);
      var key := BucketKey(interval, start);
      closed := OpenBucket(interval, start);
      LaneLookups(open, interval);
      ghost var before := open;
      open := open[key := BucketAfter(open[key], t)];
      forall i ensures LaneStepped(old(open), open, closed, [interval], totals.cvd, i, t) {
        LaneSet(before, key, open[key], i);
      }
    }

    method OpenBucket(interval: nat, start: nat) returns (closed: seq<TimeBucket>)
      requires Valid()
      modifies this`open, this`completed
      ensures Valid()
      ensures completed == old(completed) + closed
      ensures Lane(open, interval) == Opened(Lane(old(open), interval), totals.cvd, interval, start).0
      ensures OfInterval(closed, interval) == Opened(Lane(old(open), interval), totals.cvd, interval, start).1
      ensures forall i | i != interval :: Lane(open, i) == Lane(old(open), i) && OfInterval(closed, i) == []
      ensures (open, closed) == BucketOpened(old(open), totals.cvd, interval, start)
    {
      closed := [];
      LaneLookups(open, interval);
      var key := BucketKey(interval, start);
      if key !in open {
        var previous := Previous(Lane(open, interval), start);
        if previous.Some? {
          closed := CloseBucket(BucketKey(interval, previous.value), start);
        }
        ghost var before := open;
        open := open[key := EmptyBucket(interval, start)];
        forall i ensures Lane(open, i) == LaneWith(before, key, EmptyBucket(interval, start), i) {
          LaneSet(before, key, EmptyBucket(interval, start), i);
        }
      }
    }

    method CloseBucket(key: BucketKey, end: nat) returns (closed: seq<TimeBucket>)
      requires Valid() && key in open
      modifies this`open, this`completed
      ensures Valid()
      ensures completed == old(completed) + closed
      ensures closed == [old(open)[key].(end := end, cvdEnd := totals.cvd)] && open == old(open) - {key}
      ensures OfInterval(closed, key.interval) == closed && forall i | i != key.interval :: OfInterval(closed, i) == []
      ensures forall i :: Lane(open, i) == LaneWithout(old(open), key, i)
    {
      var bucket := open[key].(end := end, cvdEnd := totals.cvd);
      open := open - {key};
      completed := completed + [bucket];
      closed := [bucket];
      assert closed[..0] == [];
      forall i ensures Lane(open, i) == LaneWithout(old(open), key, i) {
        LaneRemove(old(open), key, i);
      }
    }

    /** Drop completed buckets that ended before the retention window. */
    method Prune(now: nat)
      modifies this`completed
      ensures completed == Retained(old(completed), now, retentionMs)
      ensures FlowNext(old(View()), PruneAt(now), View(), Outdated(old(completed), now, retentionMs), intervals,
                       retentionMs)
    {
      var cutoff := if now >= retentionMs then now - retentionMs else 0;
      while completed != [] && completed[0].end < cutoff
        invariant Retained(completed, now, retentionMs) == Retained(old(completed), now, retentionMs)
        decreases |completed|
      {
        completed := completed[1..];
      }
      OutdatedIsFront(old(completed), now, retentionMs);
    }

    /** Count a large trade at a price that has been traded. */
    method RecordLargeTrade(price: nat)
      modifies this`volumeByPrice
      ensures volumeByPrice == LargeAfter(old(volumeByPrice), price)
      ensures FlowNext(old(View()), LargeAt(price), View(), [], intervals, retentionMs)
    {
      if price in volumeByPrice {
        var v := volumeByPrice[price];
        volumeByPrice := volumeByPrice[price := v.(largeTrades := v.largeTrades + 1)];
      }
    }

    /** Drain the completed buckets, ordered by interval and start. */
    method TakeCompleted() returns (out: seq<TimeBucket>)
      modifies this`completed
      ensures FlowNext(old(View()), Drained, View(), out, intervals, retentionMs)
      ensures completed == [] && multiset(out) == multiset(old(completed))
      ensures forall i, j | 0 <= i < j < |out| ::
          out[i].interval < out[j].interval || (out[i].interval == out[j].interval && out[i].start <= out[j].start)
    {
      out := SortedBy(completed, KeyOrder);
      SortedByIsSorted(completed, KeyOrder);
      assert forall i, j | 0 <= i < j < |out| :: KeyOrder(out[i], out[j]);
      completed := [];
    }
  }

  predicate KeyOrder(a: TimeBucket, b: TimeBucket) {
    a.interval < b.interval || (a.interval == b.interval && a.start <= b.start)
  }

  function Retained(buckets: seq<TimeBucket>, now: nat, retentionMs: nat): (r: seq<TimeBucket>)
    ensures r != [] ==> r[0].end + retentionMs >= now
  {
    if buckets != [] && now >= retentionMs && buckets[0].end < now - retentionMs
    then Retained(buckets[1..], now, retentionMs)
    else buckets
  }

  /** What pruning takes from the front. */
  function Outdated(buckets: seq<TimeBucket>, now: nat, retentionMs: nat): (r: seq<TimeBucket>)
    ensures forall b | b in r :: b.end + retentionMs < now
  {
    if buckets != [] && now >= retentionMs && buckets[0].end < now - retentionMs
    then [buckets[0]] + Outdated(buckets[1..], now, retentionMs)
    else []
  }

  lemma {:induction false} OutdatedIsFront(buckets: seq<TimeBucket>, now: nat, retentionMs: nat)
    ensures buckets == Outdated(buckets, now, retentionMs) + Retained(buckets, now, retentionMs)
  {
    if buckets != [] && now >= retentionMs && buckets[0].end < now - retentionMs {
      OutdatedIsFront(buckets[1..], now, retentionMs);
      assert buckets == [buckets[0]] + buckets[1..];
    }
  }

  function LargeAfter(volumes: map<nat, VolumeAtPrice>, price: nat): map<nat, VolumeAtPrice> {
    if price in volumes then volumes[price := volumes[price].(largeTrades := volumes[price].largeTrades + 1)]
    else volumes
  }

  /** What may happen to a trade flow. */
  datatype FlowOp = Traded(trade: Trade) | LargeAt(price: nat) | PruneAt(now: nat) | Drained

  /** What each operation does to the flow, and which buckets it hands out: those it closed, or those that
      it takes off the completed list. */
  ghost predicate FlowNext(s: FlowState, op: FlowOp, next: FlowState, out: seq<TimeBucket>, intervals: seq<nat>,
                           retentionMs: nat) {
    match op
    case Traded(t) =>
      && next.totals == TotalsAfter(s.totals, t)
      && next.volumeByPrice == VolumeAfter(s.volumeByPrice, t)
      && next.completed == s.completed + out
      && forall i :: LaneStepped(s.open, next.open, out, intervals, next.totals.cvd, i, t)
    case LargeAt(price) => next == s.(volumeByPrice := LargeAfter(s.volumeByPrice, price)) && out == []
    case PruneAt(now) =>
      && next == s.(completed := Retained(s.completed, now, retentionMs))
      && s.completed == out + next.completed
    case Drained => next == s.(completed := []) && out == SortedBy(s.completed, KeyOrder)
  }

  ghost function LaneWith(open: map<BucketKey, TimeBucket>, k: BucketKey, b: TimeBucket,
                          interval: nat): map<nat, TimeBucket> {
    if k.interval == interval then Lane(open, interval)[k.start := b] else Lane(open, interval)
  }

  ghost function LaneWithout(open: map<BucketKey, TimeBucket>, k: BucketKey, interval: nat): map<nat, TimeBucket> {
    if k.interval == interval then Lane(open, interval) - {k.start} else Lane(open, interval)
  }

  /** From `before` to `after` the lane of `interval` took the step of the trade, if it is included, and
      `closed` holds what that step closed. */
  ghost predicate LaneStepped(before: map<BucketKey, TimeBucket>, after: map<BucketKey, TimeBucket>,
                              closed: seq<TimeBucket>, included: seq<nat>, cvd: int, interval: nat, t: Trade) {
    if interval in included && interval > 0 then
      var (lane, out) := LaneStep(Lane(before, interval), cvd, interval, t);
      Lane(after, interval) == lane && OfInterval(closed, interval) == out
    else
      Lane(after, interval) == Lane(before, interval) && OfInterval(closed, interval) == []
  }

  lemma {:induction false} OfIntervalConcat(a: seq<TimeBucket>, b: seq<TimeBucket>, interval: nat)
    ensures OfInterval(a + b, interval) == OfInterval(a, interval) + OfInterval(b, interval)
    decreases |b|
  {
    if b == [] {
      assert a + b == a;
    } else {
      assert (a + b)[..|a + b| - 1] == a + b[..|b| - 1];
      OfIntervalConcat(a, b[..|b| - 1], interval);
    }
  }

  function VolumeAfter(volumes: map<nat, VolumeAtPrice>, t: Trade): map<nat, VolumeAtPrice> {
    var known := if t.price in volumes then volumes[t.price] else VolumeAtPrice(0, 0, 0, 0, 0, 0);
    volumes[t.price := ProfileAfter(known, t)]
  }
}
