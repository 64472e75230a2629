/** Streaming time buckets against the batch grouping of the same trades. */
module FlowBatches {
  import opened Arithmetic
  import opened Flow
  import opened Options
  import opened Sums
  import opened Wire

  /** What a bucket accumulates. */
  datatype Measure = Buys | Sells | Volume | Net | Count

  function Of(b: TimeBucket, m: Measure): int {
    match m
    case Buys => b.buyVolume
    case Sells => b.sellVolume
    case Volume => b.totalVolume
    case Net => b.delta
    case Count => b.tradeCount
  }

  function Weight(t: Trade, m: Measure): int {
    match m
    case Buys => if t.aggressor == Buy then t.quantity else 0
    case Sells => if t.aggressor == Sell then t.quantity else 0
    case Volume => t.quantity
    case Net => if t.aggressor == Buy then t.quantity else 0 - t.quantity
    case Count => 1
  }

  /** The trade falls into `[start, start + interval)`. */
  predicate InWindow(t: Trade, start: nat, interval: nat) {
    start <= t.tradeTime < start + interval
  }

  /** Batch sum over exactly the trades of one window. */
  function BatchSum(trades: seq<Trade>, start: nat, interval: nat, m: Measure): int {
    if trades == [] then 0
    else
      var t := trades[|trades| - 1];
      BatchSum(trades[..|trades| - 1], start, interval, m) + if InWindow(t, start, interval) then Weight(t, m) else 0
  }

  function Total(trades: seq<Trade>, m: Measure): int {
    if trades == [] then 0 else Total(trades[..|trades| - 1], m) + Weight(trades[|trades| - 1], m)
  }

  /** The lane of one interval after a stream of trades, and every bucket it ever closed. */
  function LaneRun(trades: seq<Trade>, interval: nat): (map<nat, TimeBucket>, seq<TimeBucket>)
    requires interval > 0
  {
    if trades == [] then (map[], [])
    else
      var (lane, done) := LaneRun(trades[..|trades| - 1], interval);
      var (next, closed) := LaneStep(lane, Total(trades, Net), interval, trades[|trades| - 1]);
      (next, done + closed)
  }

  ghost predicate Chronological(trades: seq<Trade>) {
    forall i, j | 0 <= i < j < |trades| :: trades[i].tradeTime <= trades[j].tradeTime
  }

  lemma StartFacts(time: nat, interval: nat)
    requires interval > 0
    ensures StartOf(time, interval) % interval == 0
    ensures StartOf(time, interval) <= time < StartOf(time, interval) + interval
  {
    QuotientOf(interval, time / interval, 0);
  }

  lemma {:induction false} OutsideSumsToZero(trades: seq<Trade>, start: nat, interval: nat, m: Measure)
    requires forall i | 0 <= i < |trades| :: !InWindow(trades[i], start, interval)
    ensures BatchSum(trades, start, interval, m) == 0
  {
    if trades != [] { OutsideSumsToZero(trades[..|trades| - 1], start, interval, m); }
  }

  /** How many trades came before a point in time. */
  function CountBefore(trades: seq<Trade>, time: nat): (n: nat)
    ensures n <= |trades|
  {
    if trades == [] then 0
    else CountBefore(trades[..|trades| - 1], time) + if trades[|trades| - 1].tradeTime < time then 1 else 0
  }

  /** The bucket is the batch sum of its own window. */
  ghost predicate IsBatch(b: TimeBucket, trades: seq<Trade>, interval: nat)
    requires interval > 0
  {
    && b.interval == interval
    && b.start % interval == 0
    && forall m :: Of(b, m) == BatchSum(trades, b.start, interval, m)
  }

  /** The closed buckets tile time up to the open one, and each records the running delta at the
      trade that closed it, that trade included. */
  ghost predicate Tiled(done: seq<TimeBucket>, trades: seq<Trade>, interval: nat, openStart: nat)
    requires interval > 0
  {
    && (forall k | 0 <= k < |done| :: Tile(done[k], trades, interval, openStart))
    && (forall j, k | 0 <= j && k == j + 1 < |done| :: done[j].end == done[k].start)
    && (done != [] ==> done[|done| - 1].end == openStart)
  }

  ghost predicate Tile(b: TimeBucket, trades: seq<Trade>, interval: nat, openStart: nat)
    requires interval > 0
  {
    && IsBatch(b, trades, interval)
    && b.start + interval <= b.end <= openStart
    && CountBefore(trades, b.end) < |trades|
    && b.cvdEnd == Total(trades[..CountBefore(trades, b.end) + 1], Net)
  }

  /** Exactly one bucket is open, that of the last trade. */
  ghost predicate OneOpen(lane: map<nat, TimeBucket>, trades: seq<Trade>, interval: nat)
    requires interval > 0 && trades != []
  {
    var s := StartOf(trades[|trades| - 1].tradeTime, interval);
    lane.Keys == {s} && lane[s].start == s && IsBatch(lane[s], trades, interval)
  }

  ghost predicate Batched(lane: map<nat, TimeBucket>, done: seq<TimeBucket>, trades: seq<Trade>, interval: nat)
    requires interval > 0
  {
    if trades == [] then lane == map[] && done == []
    else
      && OneOpen(lane, trades, interval)
      && Tiled(done, trades, interval, StartOf(trades[|trades| - 1].tradeTime, interval))
  }

  /** For trades in time order, streaming equals batching: one open bucket, closed buckets that tile
      time, and in every bucket the sums over exactly the trades of its window. */
  lemma {:induction false} StreamingEqualsBatch(trades: seq<Trade>, interval: nat)
    requires interval > 0 && Chronological(trades)
    ensures Batched(LaneRun(trades, interval).0, LaneRun(trades, interval).1, trades, interval)
  {
    if trades != [] {
      var before := trades[..|trades| - 1];
      StreamingEqualsBatch(before, interval);
      var (lane, done) := LaneRun(before, interval);
      BatchedStep(lane, done, trades, interval);
    }
  }

  lemma BatchedStep(lane: map<nat, TimeBucket>, done: seq<TimeBucket>, trades: seq<Trade>, interval: nat)
    requires interval > 0 && trades != [] && Chronological(trades)
    requires Batched(lane, done, trades[..|trades| - 1], interval)
    ensures var (next, closed) := LaneStep(lane, Total(trades, Net), interval, trades[|trades| - 1]);
      Batched(next, done + closed, trades, interval)
  {
    hide IsBatch, Tile, LaneStep, Total, BatchSum;
    if |trades| == 1 {
      FirstBucket(lane, trades, interval);
    } else {
      var before := trades[..|trades| - 1];
      assert before[|before| - 1] == trades[|trades| - 2];
      var s0, s := StartOf(trades[|trades| - 2].tradeTime, interval), StartOf(trades[|trades| - 1].tradeTime, interval);
      StartFacts(trades[|trades| - 2].tradeTime, interval);
      StartsOrdered(trades[|trades| - 2].tradeTime, trades[|trades| - 1].tradeTime, interval);
      TilesKept(done, trades, interval, s0);
      if s0 < s {
        NextBucketOpens(lane, done, trades, interval);
      } else {
        SameBucket(lane, trades, interval);
        assert done + [] == done;
      }
    }
  }

  lemma FirstBucket(lane: map<nat, TimeBucket>, trades: seq<Trade>, interval: nat)
    requires interval > 0 && |trades| == 1 && lane == map[]
    ensures var (next, closed) := LaneStep(lane, Total(trades, Net), interval, trades[0]);
      closed == [] && OneOpen(next, trades, interval)
  {
    var t := trades[0];
    var s := StartOf(t.tradeTime, interval);
    StartFacts(t.tradeTime, interval);
    assert Previous(lane, s).None?;
    forall m ensures BatchSum(trades, s, interval, m) == Weight(t, m) {
      assert BatchSum(trades[..0], s, interval, m) == 0;
    }
    assert IsBatch(BucketAfter(EmptyBucket(interval, s), t), trades, interval);
  }

  lemma SameBucket(lane: map<nat, TimeBucket>, trades: seq<Trade>, interval: nat)
    requires interval > 0 && |trades| >= 2 && OneOpen(lane, trades[..|trades| - 1], interval)
    requires StartOf(trades[|trades| - 2].tradeTime, interval) == StartOf(trades[|trades| - 1].tradeTime, interval)
    ensures var (next, closed) := LaneStep(lane, Total(trades, Net), interval, trades[|trades| - 1]);
      closed == [] && OneOpen(next, trades, interval)
  {
    var before, t := trades[..|trades| - 1], trades[|trades| - 1];
    assert before[|before| - 1] == trades[|trades| - 2];
    var s := StartOf(t.tradeTime, interval);
    StartFacts(t.tradeTime, interval);
    assert IsBatch(BucketAfter(lane[s], t), trades, interval);
  }

  lemma StartsOrdered(a: nat, b: nat, interval: nat)
    requires interval > 0 && a <= b
    ensures StartOf(a, interval) <= StartOf(b, interval)
  {
    StartFacts(a, interval);
    StartFacts(b, interval);
    if StartOf(b, interval) < StartOf(a, interval) {
      MultiplesApart(StartOf(b, interval), StartOf(a, interval), interval);
    }
  }

  /** A later trade leaves the closed buckets alone. */
  lemma TilesKept(done: seq<TimeBucket>, trades: seq<Trade>, interval: nat, openStart: nat)
    requires interval > 0 && trades != []
    requires Tiled(done, trades[..|trades| - 1], interval, openStart)
    requires openStart <= trades[|trades| - 1].tradeTime
    ensures Tiled(done, trades, interval, openStart)
  {
    forall k | 0 <= k < |done| ensures Tile(done[k], trades, interval, openStart) {
      TileKept(done[k], trades, interval, openStart);
    }
  }

  lemma TileKept(b: TimeBucket, trades: seq<Trade>, interval: nat, openStart: nat)
    requires interval > 0 && trades != []
    requires Tile(b, trades[..|trades| - 1], interval, openStart)
    requires openStart <= trades[|trades| - 1].tradeTime
    ensures Tile(b, trades, interval, openStart)
  {
    var before := trades[..|trades| - 1];
    var n := CountBefore(before, b.end);
    assert CountBefore(trades, b.end) == n;
    assert trades[..n + 1] == before[..n + 1];
    assert !InWindow(trades[|trades| - 1], b.start, interval);
  }

  lemma NextBucketOpens(lane: map<nat, TimeBucket>, done: seq<TimeBucket>, trades: seq<Trade>, interval: nat)
    requires interval > 0 && |trades| >= 2 && Chronological(trades)
    requires Batched(lane, done, trades[..|trades| - 1], interval)
    requires StartOf(trades[|trades| - 2].tradeTime, interval) < StartOf(trades[|trades| - 1].tradeTime, interval)
    requires Tiled(done, trades, interval, StartOf(trades[|trades| - 2].tradeTime, interval))
    ensures var (next, closed) := LaneStep(lane, Total(trades, Net), interval, trades[|trades| - 1]);
      Batched(next, done + closed, trades, interval)
  {
    hide IsBatch, Of, BatchSum, StartOf, Tile;
    var before, t := trades[..|trades| - 1], trades[|trades| - 1];
    var s0, s := StartOf(trades[|trades| - 2].tradeTime, interval), StartOf(t.tradeTime, interval);
    assert before[|before| - 1] == trades[|trades| - 2];
    StartFacts(trades[|trades| - 2].tradeTime, interval);
    StartFacts(t.tradeTime, interval);
    MultiplesApart(s0, s, interval);
    assert s0 in lane && s !in lane && Previous(lane, s) == Some(s0);
    var bucket := lane[s0].(end := s, cvdEnd := Total(trades, Net));
    BucketEnds(lane[s0], trades, interval, s, Total(trades, Net));
    AllBefore(before, s);
    assert CountBefore(trades, s) == |before|;
    var created := BucketAfter(EmptyBucket(interval, s), t);
    BucketStarts(trades, interval, s);
    var (next, closed) := LaneStep(lane, Total(trades, Net), interval, t);
    assert closed == [bucket] && next == map[s := created];
    NextTile(bucket, trades, interval, s);
    TileAdded(done, bucket, trades, interval, s0, s);
  }

  lemma BucketEnds(b: TimeBucket, trades: seq<Trade>, interval: nat, s: nat, cvd: int)
    requires interval > 0 && |trades| >= 1 && b.start + interval <= s
    requires IsBatch(b, trades[..|trades| - 1], interval) && s <= trades[|trades| - 1].tradeTime
    ensures IsBatch(b.(end := s, cvdEnd := cvd), trades, interval)
  {
    assert !InWindow(trades[|trades| - 1], b.start, interval);
    assert forall m :: Of(b.(end := s, cvdEnd := cvd), m) == Of(b, m);
  }

  lemma BucketStarts(trades: seq<Trade>, interval: nat, s: nat)
    requires interval > 0 && |trades| >= 1 && s == StartOf(trades[|trades| - 1].tradeTime, interval)
    requires forall i | 0 <= i < |trades| - 1 :: trades[i].tradeTime < s
    ensures IsBatch(BucketAfter(EmptyBucket(interval, s), trades[|trades| - 1]), trades, interval)
  {
    var created := BucketAfter(EmptyBucket(interval, s), trades[|trades| - 1]);
    StartFacts(trades[|trades| - 1].tradeTime, interval);
    forall m ensures Of(created, m) == BatchSum(trades, s, interval, m) {
      OutsideSumsToZero(trades[..|trades| - 1], s, interval, m);
    }
  }

  lemma NextTile(bucket: TimeBucket, trades: seq<Trade>, interval: nat, s: nat)
    requires interval > 0 && trades != []
    requires IsBatch(bucket, trades, interval) && bucket.start + interval <= bucket.end == s
    requires CountBefore(trades, s) == |trades| - 1 && bucket.cvdEnd == Total(trades, Net)
    ensures Tile(bucket, trades, interval, s)
  {
    assert trades[..|trades|] == trades;
  }

  lemma TileAdded(done: seq<TimeBucket>, bucket: TimeBucket, trades: seq<Trade>, interval: nat, s0: nat, s: nat)
    requires interval > 0 && s0 <= s && Tiled(done, trades, interval, s0)
    requires Tile(bucket, trades, interval, s) && bucket.start == s0 && bucket.end == s
    ensures Tiled(done + [bucket], trades, interval, s)
  {
    var all := done + [bucket];
    forall k | 0 <= k < |all| ensures Tile(all[k], trades, interval, s) {
      if k < |done| { assert Tile(done[k], trades, interval, s0); }
    }
  }

  lemma {:induction false} AllBefore(trades: seq<Trade>, time: nat)
    requires forall i | 0 <= i < |trades| :: trades[i].tradeTime < time
    ensures CountBefore(trades, time) == |trades|
  {
    if trades != [] { AllBefore(trades[..|trades| - 1], time); }
  }

  ghost function Values(lane: map<nat, TimeBucket>, m: Measure): map<nat, int> {
    map s | s in lane :: Of(lane[s], m)
  }

  ghost function LaneTotal(lane: map<nat, TimeBucket>, m: Measure): int {
    MapSum(Values(lane, m))
  }

  function ListTotal(buckets: seq<TimeBucket>, m: Measure): int {
    if buckets == [] then 0 else ListTotal(buckets[..|buckets| - 1], m) + Of(buckets[|buckets| - 1], m)
  }

  lemma {:induction false} ListTotalConcat(a: seq<TimeBucket>, b: seq<TimeBucket>, m: Measure)
    ensures ListTotal(a + b, m) == ListTotal(a, m) + ListTotal(b, m)
    decreases |b|
  {
    if b == [] {
      assert a + b == a;
    } else {
      assert (a + b)[..|a + b| - 1] == a + b[..|b| - 1];
      ListTotalConcat(a, b[..|b| - 1], m);
    }
  }

  lemma LaneTotalSet(lane: map<nat, TimeBucket>, s: nat, b: TimeBucket, m: Measure)
    ensures LaneTotal(lane[s := b], m) == LaneTotal(lane, m) - (if s in lane then Of(lane[s], m) else 0) + Of(b, m)
  {
    assert Values(lane[s := b], m) == Values(lane, m)[s := Of(b, m)];
    MapSumSet(Values(lane, m), s, Of(b, m));
  }

  lemma LaneTotalRemove(lane: map<nat, TimeBucket>, s: nat, m: Measure)
    requires s in lane
    ensures LaneTotal(lane - {s}, m) == LaneTotal(lane, m) - Of(lane[s], m)
  {
    assert Values(lane - {s}, m) == Values(lane, m) - {s};
    MapSumSplit(Values(lane, m), s);
  }

  /** Whatever the order of the trades, open and closed buckets together account for every trade. */
  lemma {:induction false} BucketsConserve(trades: seq<Trade>, interval: nat, m: Measure)
    requires interval > 0
    ensures var (lane, done) := LaneRun(trades, interval);
      LaneTotal(lane, m) + ListTotal(done, m) == Total(trades, m)
  {
    if trades == [] {
      assert Values(map[], m) == map[];
    } else {
      BucketsConserve(trades[..|trades| - 1], interval, m);
      var (lane, done) := LaneRun(trades[..|trades| - 1], interval);
      LaneStepConserves(lane, Total(trades, Net), interval, trades[|trades| - 1], m);
      ListTotalConcat(done, LaneStep(lane, Total(trades, Net), interval, trades[|trades| - 1]).1, m);
    }
  }

  lemma LaneStepConserves(lane: map<nat, TimeBucket>, cvd: int, interval: nat, t: Trade, m: Measure)
    requires interval > 0
    ensures var (next, closed) := LaneStep(lane, cvd, interval, t);
      LaneTotal(next, m) + ListTotal(closed, m) == LaneTotal(lane, m) + Weight(t, m)
  {
    var start := StartOf(t.tradeTime, interval);
    var (current, closed) := Opened(lane, cvd, interval, start);
    if start !in lane {
      var previous := Previous(lane, start);
      if previous.Some? {
        LaneTotalRemove(lane, previous.value, m);
        LaneTotalSet(lane - {previous.value}, start, EmptyBucket(interval, start), m);
        assert closed[..0] == [];
        assert ListTotal(closed, m) == Of(lane[previous.value], m);
      } else {
        LaneTotalSet(lane, start, EmptyBucket(interval, start), m);
      }
    }
    LaneTotalSet(current, start, BucketAfter(current[start], t), m);
  }

  function TotalsRun(trades: seq<Trade>): (FlowTotals, map<nat, VolumeAtPrice>) {
    if trades == [] then (FlowTotals(0, 0, 0, 0), map[])
    else
      var (totals, volumes) := TotalsRun(trades[..|trades| - 1]);
      (TotalsAfter(totals, trades[|trades| - 1]), VolumeAfter(volumes, trades[|trades| - 1]))
  }

  function PriceSum(trades: seq<Trade>, price: nat, m: Measure): int {
    if trades == [] then 0
    else
      var t := trades[|trades| - 1];
      PriceSum(trades[..|trades| - 1], price, m) + if t.price == price then Weight(t, m) else 0
  }

  function ProfileOf(v: VolumeAtPrice, m: Measure): int {
    match m
    case Buys => v.buyVolume
    case Sells => v.sellVolume
    case Volume => v.totalVolume
    case Net => v.delta
    case Count => v.tradeCount
  }

  /** The profile lists exactly the traded prices, each with the batch sums of its own trades, and
      the running delta of the session is bought minus sold volume. */
  lemma {:induction false} ProfileEqualsBatch(trades: seq<Trade>, price: nat, m: Measure)
    ensures var (totals, volumes) := TotalsRun(trades);
      && (price in volumes <==> exists t :: t in trades && t.price == price)
      && (if price in volumes then ProfileOf(volumes[price], m) else 0) == PriceSum(trades, price, m)
      && totals.cvd == totals.buyVolume - totals.sellVolume == Total(trades, Net)
      && totals.tradeCount == |trades|
  {
    if trades != [] {
      var before, t := trades[..|trades| - 1], trades[|trades| - 1];
      ProfileEqualsBatch(before, price, m);
      assert forall x :: x in trades <==> x in before || x == t;
    }
  }
}
