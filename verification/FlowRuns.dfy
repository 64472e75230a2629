/** Whole runs of a trade flow: several intervals over one list of completed buckets, which is pruned and
    drained while trades come in. */
module FlowRuns {
  import opened Flow
  import opened FlowBatches
  import opened Sums
  import opened Wire

  /** A run: the states before, between and after the operations, and what each operation handed out. */
  datatype FlowRun = FlowRun(ops: seq<FlowOp>, states: seq<FlowState>, outs: seq<seq<TimeBucket>>)

  datatype Settings = Settings(intervals: seq<nat>, retentionMs: nat)

  /** Every operation did what the object promises of it. */
  ghost predicate IsRun(r: FlowRun, cfg: Settings) {
    && |r.states| == |r.ops| + 1 && |r.outs| == |r.ops|
    && r.states[0] == EmptyFlow
    && forall k, j | 0 <= k < |r.ops| && j == k + 1 ::
         FlowNext(r.states[k], r.ops[k], r.states[j], r.outs[k], cfg.intervals, cfg.retentionMs)
  }

  function TradeOf(op: FlowOp): seq<Trade> {
    if op.Traded? then [op.trade] else []
  }

  /** The trades among the first `n` operations. */
  function TradesOf(ops: seq<FlowOp>, n: nat): seq<Trade>
    requires n <= |ops|
  {
    if n == 0 then [] else TradesOf(ops, n - 1) + TradeOf(ops[n - 1])
  }

  function HandedOut(op: FlowOp, out: seq<TimeBucket>): seq<TimeBucket> {
    if op.PruneAt? || op.Drained? then out else []
  }

  /** Everything pruned or drained in the first `n` operations, in order. */
  function Retired(r: FlowRun, n: nat): seq<TimeBucket>
    requires n <= |r.ops| == |r.outs|
  {
    if n == 0 then [] else Retired(r, n - 1) + HandedOut(r.ops[n - 1], r.outs[n - 1])
  }

  lemma {:induction false} OfIntervalCounts(s: seq<TimeBucket>, interval: nat, x: TimeBucket)
    ensures multiset(OfInterval(s, interval))[x] == if x.interval == interval then multiset(s)[x] else 0
  {
    if s != [] {
      var front, last := s[..|s| - 1], s[|s| - 1];
      assert s == front + [last];
      OfIntervalCounts(front, interval, x);
    }
  }

  lemma OfIntervalSameBag(a: seq<TimeBucket>, b: seq<TimeBucket>, interval: nat)
    requires multiset(a) == multiset(b)
    ensures multiset(OfInterval(a, interval)) == multiset(OfInterval(b, interval))
  {
    forall x ensures multiset(OfInterval(a, interval))[x] == multiset(OfInterval(b, interval))[x] {
      OfIntervalCounts(a, interval, x);
      OfIntervalCounts(b, interval, x);
    }
  }

  /** All buckets of an interval: handed out so far, then completed. */
  ghost function Ever(s: FlowState, retired: seq<TimeBucket>, interval: nat): seq<TimeBucket> {
    OfInterval(retired + s.completed, interval)
  }

  /** The lane of one interval after some trades: its open buckets, and every bucket it closed. */
  ghost predicate LaneHolds(s: FlowState, retired: seq<TimeBucket>, trades: seq<Trade>, interval: nat)
    requires interval > 0
  {
    && Lane(s.open, interval) == LaneRun(trades, interval).0
    && multiset(Ever(s, retired, interval)) == multiset(LaneRun(trades, interval).1)
  }

  /** An operation hands over from completed to retired, or closes buckets. */
  lemma EverAfter(s: FlowState, retired: seq<TimeBucket>, op: FlowOp, next: FlowState, out: seq<TimeBucket>,
                  cfg: Settings, interval: nat)
    requires FlowNext(s, op, next, out, cfg.intervals, cfg.retentionMs)
    ensures var closed := if op.Traded? then OfInterval(out, interval) else [];
      multiset(Ever(next, retired + HandedOut(op, out), interval)) == multiset(Ever(s, retired, interval) + closed)
    ensures op.Traded? ==> Ever(next, retired + HandedOut(op, out), interval)
                           == Ever(s, retired, interval) + OfInterval(out, interval)
    ensures !op.Traded? && !op.Drained?
         ==> Ever(next, retired + HandedOut(op, out), interval) == Ever(s, retired, interval)
  {
    hide Retained, LaneStepped, SortedBy, OfInterval, TotalsAfter, VolumeAfter, LargeAfter;
    var before, after := retired + s.completed, retired + HandedOut(op, out) + next.completed;
    assert OfInterval(before, interval) + [] == OfInterval(before, interval);
    if op.Traded? {
      assert after == before + out;
      OfIntervalConcat(before, out, interval);
    } else if op.Drained? {
      assert after == retired + out;
      OfIntervalSameBag(after, before, interval);
    } else {
      assert after == before;
    }
  }

  lemma LaneAfter(s: FlowState, retired: seq<TimeBucket>, trades: seq<Trade>, op: FlowOp, next: FlowState,
                  out: seq<TimeBucket>, cfg: Settings, interval: nat)
    requires FlowNext(s, op, next, out, cfg.intervals, cfg.retentionMs) && interval in cfg.intervals && interval > 0
    requires LaneHolds(s, retired, trades, interval) && s.totals.cvd == Total(trades, Net)
    ensures LaneHolds(next, retired + HandedOut(op, out), trades + TradeOf(op), interval)
  {
    hide OfInterval, Retained, SortedBy, Lane, LaneStep, Ever;
    EverAfter(s, retired, op, next, out, cfg, interval);
    if op.Traded? {
      var all := trades + [op.trade];
      assert all[..|all| - 1] == trades;
      assert LaneStepped(s.open, next.open, out, cfg.intervals, next.totals.cvd, interval, op.trade);
      assert Total(all, Net) == next.totals.cvd;
    } else {
      assert trades + [] == trades;
    }
  }

  /** The profile without the counts of large trades. */
  function Plain(volumes: map<nat, VolumeAtPrice>): map<nat, VolumeAtPrice> {
    map p | p in volumes :: volumes[p].(largeTrades := 0)
  }

  ghost predicate TotalsHold(s: FlowState, trades: seq<Trade>) {
    s.totals == TotalsRun(trades).0 && Plain(s.volumeByPrice) == TotalsRun(trades).1
  }

  lemma TotalsAppend(trades: seq<Trade>, t: Trade)
    ensures TotalsRun(trades + [t])
         == (TotalsAfter(TotalsRun(trades).0, t), VolumeAfter(TotalsRun(trades).1, t))
  {
    assert (trades + [t])[..|trades|] == trades;
  }

  lemma TotalsAfterOp(s: FlowState, trades: seq<Trade>, op: FlowOp, next: FlowState, out: seq<TimeBucket>,
                      cfg: Settings)
    requires FlowNext(s, op, next, out, cfg.intervals, cfg.retentionMs) && TotalsHold(s, trades)
    ensures TotalsHold(next, trades + TradeOf(op))
  {
    hide TotalsRun, LaneStepped;
    assert trades + [] == trades;
    match op {
      case Traded(t) =>
        TotalsAppend(trades, t);
        assert Plain(VolumeAfter(s.volumeByPrice, t)) == VolumeAfter(Plain(s.volumeByPrice), t);
      case LargeAt(p) =>
        assert Plain(LargeAfter(s.volumeByPrice, p)) == Plain(s.volumeByPrice);
      case _ =>
    }
  }

  ghost predicate Holds(r: FlowRun, cfg: Settings, n: nat)
    requires n <= |r.ops| == |r.outs| && |r.states| == |r.ops| + 1
  {
    && TotalsHold(r.states[n], TradesOf(r.ops, n))
    && forall i | i in cfg.intervals && i > 0 :: LaneHolds(r.states[n], Retired(r, n), TradesOf(r.ops, n), i)
  }

  /** Every run of the object, with any number of configured intervals and any order of trades, prunes and
      drains: session totals and profile are those of the trades, every interval has exactly the open buckets
      that its own trades leave open, and what it completed, was pruned or drained of is exactly what these
      trades close. */
  lemma {:induction false} RunHoldsLanes(r: FlowRun, cfg: Settings, n: nat)
    requires IsRun(r, cfg) && n <= |r.ops|
    ensures Holds(r, cfg, n)
  {
    hide FlowNext, LaneHolds, TotalsHold;
    if n == 0 {
      StartHolds(r, cfg);
    } else {
      RunHoldsLanes(r, cfg, n - 1);
      var s, next, op, out := r.states[n - 1], r.states[n], r.ops[n - 1], r.outs[n - 1];
      assert FlowNext(s, op, next, out, cfg.intervals, cfg.retentionMs);
      var trades, retired := TradesOf(r.ops, n - 1), Retired(r, n - 1);
      TotalsAfterOp(s, trades, op, next, out, cfg);
      CvdHolds(s, trades);
      forall i | i in cfg.intervals && i > 0 ensures LaneHolds(next, Retired(r, n), TradesOf(r.ops, n), i) {
        LaneAfter(s, retired, trades, op, next, out, cfg, i);
      }
    }
  }

  lemma CvdHolds(s: FlowState, trades: seq<Trade>)
    requires TotalsHold(s, trades)
    ensures s.totals.cvd == Total(trades, Net)
  {
    ProfileEqualsBatch(trades, 0, Net);
  }

  lemma StartHolds(r: FlowRun, cfg: Settings)
    requires IsRun(r, cfg)
    ensures Holds(r, cfg, 0)
  {
    assert Plain(map[]) == map[];
    forall i | i in cfg.intervals && i > 0 ensures LaneHolds(EmptyFlow, [], [], i) {
      assert Lane(map[], i) == map[];
    }
  }

  lemma {:induction false} ListTotalSameBag(a: seq<TimeBucket>, b: seq<TimeBucket>, m: Measure)
    requires multiset(a) == multiset(b)
    ensures ListTotal(a, m) == ListTotal(b, m)
    decreases |a|
  {
    hide ListTotal;
    assert |multiset(a)| == |a| && |multiset(b)| == |b|;
    if a == [] {
      assert b == [];
    } else {
      var n := |a| - 1;
      assert a[n] in multiset(b);
      var k :| 0 <= k < |b| && b[k] == a[n];
      RemoveOne(a, n, m);
      RemoveOne(b, k, m);
      assert a[..n] + a[n + 1..] == a[..n];
      ListTotalSameBag(a[..n], b[..k] + b[k + 1..], m);
    }
  }

  lemma RemoveOne(b: seq<TimeBucket>, k: nat, m: Measure)
    requires k < |b|
    ensures multiset(b[..k] + b[k + 1..]) == multiset(b) - multiset{b[k]}
    ensures ListTotal(b, m) == ListTotal(b[..k] + b[k + 1..], m) + Of(b[k], m)
  {
    assert b == b[..k] + [b[k]] + b[k + 1..];
    ListTotalConcat(b[..k] + [b[k]], b[k + 1..], m);
    ListTotalConcat(b[..k], [b[k]], m);
    ListTotalConcat(b[..k], b[k + 1..], m);
    assert [b[k]][..0] == [];
  }

  /** The session's own counters. */
  function InTotals(t: FlowTotals, m: Measure): int {
    match m
    case Buys => t.buyVolume
    case Sells => t.sellVolume
    case Volume => t.buyVolume + t.sellVolume
    case Net => t.cvd
    case Count => t.tradeCount
  }

  lemma {:induction false} TotalsAreSums(trades: seq<Trade>, m: Measure)
    ensures InTotals(TotalsRun(trades).0, m) == Total(trades, m)
  {
    if trades != [] { TotalsAreSums(trades[..|trades| - 1], m); }
  }

  /** In every run, for every configured interval: open, completed and retired buckets add up to the session
      totals of the object. */
  lemma SessionTotalsAccounted(r: FlowRun, cfg: Settings, n: nat, interval: nat, m: Measure)
    requires IsRun(r, cfg) && n <= |r.ops| && interval in cfg.intervals && interval > 0
    ensures var s := r.states[n];
      LaneTotal(Lane(s.open, interval), m) + ListTotal(OfInterval(s.completed, interval), m)
      + ListTotal(OfInterval(Retired(r, n), interval), m) == InTotals(s.totals, m)
  {
    var s, retired, trades := r.states[n], Retired(r, n), TradesOf(r.ops, n);
    RunHoldsLanes(r, cfg, n);
    hide IsRun, LaneRun, TotalsRun, Lane, OfInterval;
    assert LaneHolds(s, retired, trades, interval);
    BucketsConserve(trades, interval, m);
    ListTotalSameBag(Ever(s, retired, interval), LaneRun(trades, interval).1, m);
    OfIntervalConcat(retired, s.completed, interval);
    ListTotalConcat(OfInterval(retired, interval), OfInterval(s.completed, interval), m);
    TotalsAreSums(trades, m);
  }

  lemma {:induction false} OfIntervalSorted(s: seq<TimeBucket>, interval: nat)
    requires IsSorted(s, KeyOrder)
    ensures IsSorted(OfInterval(s, interval), KeyOrder)
    ensures forall x | x in OfInterval(s, interval) :: x in s
  {
    if s != [] {
      var front, last := s[..|s| - 1], s[|s| - 1];
      OfIntervalSorted(front, interval);
      var kept := OfInterval(front, interval);
      forall i | 0 <= i < |kept| ensures KeyOrder(kept[i], last) {
        assert kept[i] in front;
        var k :| 0 <= k < |front| && front[k] == kept[i];
        assert s[k] == front[k];
      }
    }
  }

  lemma {:induction false} OfIntervalIsIts(s: seq<TimeBucket>, interval: nat)
    ensures forall x | x in OfInterval(s, interval) :: x.interval == interval
  {
    if s != [] { OfIntervalIsIts(s[..|s| - 1], interval); }
  }

  /** Closed buckets of an interval start one after the other. */
  lemma {:induction false} TilesAscend(done: seq<TimeBucket>, trades: seq<Trade>, interval: nat, openStart: nat,
                                       i: nat, j: nat)
    requires interval > 0 && Tiled(done, trades, interval, openStart) && i < j < |done|
    ensures done[i].start < done[j].start
    decreases j - i
  {
    hide IsBatch, CountBefore, Total;
    assert Tile(done[i], trades, interval, openStart);
    assert done[i].end == done[i + 1].start;
    if i + 1 < j { TilesAscend(done, trades, interval, openStart, i + 1, j); }
  }

  /** Draining sorts by interval and start, which is the order in which an interval closed its buckets. */
  lemma DrainKeepsOrder(completed: seq<TimeBucket>, interval: nat)
    requires forall i, j | 0 <= i < j < |OfInterval(completed, interval)| ::
               OfInterval(completed, interval)[i].start < OfInterval(completed, interval)[j].start
    ensures OfInterval(SortedBy(completed, KeyOrder), interval) == OfInterval(completed, interval)
  {
    hide OfInterval, SortedBy;
    var sorted, mine := SortedBy(completed, KeyOrder), OfInterval(completed, interval);
    SortedByIsSorted(completed, KeyOrder);
    OfIntervalSorted(sorted, interval);
    OfIntervalSameBag(completed, sorted, interval);
    OfIntervalIsIts(completed, interval);
    assert StrictlySorted(mine, KeyOrder) by {
      forall i, j | 0 <= i < j < |mine| ensures KeyOrder(mine[i], mine[j]) && !KeyOrder(mine[j], mine[i]) {
        assert mine[i] in mine && mine[j] in mine;
      }
    }
    SortingRestores(mine, OfInterval(sorted, interval), KeyOrder);
  }

  /** With nondecreasing trade times the buckets of an interval leave in the order in which it closed them, so
      that pruned, drained and completed ones together are the tiling that the batch grouping gives. */
  lemma {:induction false} ChronologicalRunIsBatch(r: FlowRun, cfg: Settings, n: nat, interval: nat)
    requires IsRun(r, cfg) && n <= |r.ops| && interval in cfg.intervals && interval > 0
    requires Chronological(TradesOf(r.ops, n))
    ensures var s, trades := r.states[n], TradesOf(r.ops, n);
      && Ever(s, Retired(r, n), interval) == LaneRun(trades, interval).1
      && Batched(Lane(s.open, interval), Ever(s, Retired(r, n), interval), trades, interval)
  {
    hide FlowNext, LaneRun, Batched, Ever, OfInterval, LaneHolds, TotalsHold, Chronological;
    var trades := TradesOf(r.ops, n);
    LaneOfRun(r, cfg, n, interval);
    StreamingEqualsBatch(trades, interval);
    if n == 0 {
      NothingEver(r, cfg, interval);
    } else {
      var s, next, op, out := r.states[n - 1], r.states[n], r.ops[n - 1], r.outs[n - 1];
      var before := TradesOf(r.ops, n - 1);
      FrontChronological(before, TradeOf(op));
      ChronologicalRunIsBatch(r, cfg, n - 1, interval);
      LaneOfRun(r, cfg, n - 1, interval);
      assert FlowNext(s, op, next, out, cfg.intervals, cfg.retentionMs);
      OpKeepsOrder(s, Retired(r, n - 1), before, op, next, out, cfg, interval);
    }
  }

  lemma LaneOfRun(r: FlowRun, cfg: Settings, n: nat, interval: nat)
    requires IsRun(r, cfg) && n <= |r.ops| && interval in cfg.intervals && interval > 0
    ensures Lane(r.states[n].open, interval) == LaneRun(TradesOf(r.ops, n), interval).0
    ensures r.states[n].totals.cvd == Total(TradesOf(r.ops, n), Net)
  {
    hide FlowNext, TotalsHold, LaneRun, Ever, Lane;
    RunHoldsLanes(r, cfg, n);
    CvdHolds(r.states[n], TradesOf(r.ops, n));
    assert LaneHolds(r.states[n], Retired(r, n), TradesOf(r.ops, n), interval);
  }

  lemma NothingEver(r: FlowRun, cfg: Settings, interval: nat)
    requires IsRun(r, cfg) && interval > 0
    ensures Ever(r.states[0], Retired(r, 0), interval) == LaneRun([], interval).1
  {
  }

  lemma FrontChronological(a: seq<Trade>, b: seq<Trade>)
    requires Chronological(a + b)
    ensures Chronological(a)
  {
    assert forall i | 0 <= i < |a| :: (a + b)[i] == a[i];
  }

  lemma OpKeepsOrder(s: FlowState, retired: seq<TimeBucket>, before: seq<Trade>, op: FlowOp, next: FlowState,
                     out: seq<TimeBucket>, cfg: Settings, interval: nat)
    requires FlowNext(s, op, next, out, cfg.intervals, cfg.retentionMs) && interval in cfg.intervals && interval > 0
    requires Ever(s, retired, interval) == LaneRun(before, interval).1
    requires Lane(s.open, interval) == LaneRun(before, interval).0
    requires s.totals.cvd == Total(before, Net) && Chronological(before)
    ensures Ever(next, retired + HandedOut(op, out), interval) == LaneRun(before + TradeOf(op), interval).1
  {
    hide OfInterval, Retained, SortedBy, Lane, LaneStep, Ever, KeyOrder;
    EverAfter(s, retired, op, next, out, cfg, interval);
    if op.Traded? {
      var all := before + [op.trade];
      assert all[..|all| - 1] == before;
      assert LaneStepped(s.open, next.open, out, cfg.intervals, next.totals.cvd, interval, op.trade);
      assert Total(all, Net) == next.totals.cvd;
    } else {
      assert before + [] == before;
      if op.Drained? { DrainedInOrder(s, retired, before, next, out, interval); }
    }
  }

  lemma DrainedInOrder(s: FlowState, retired: seq<TimeBucket>, before: seq<Trade>, next: FlowState,
                       out: seq<TimeBucket>, interval: nat)
    requires interval > 0 && next.completed == [] && out == SortedBy(s.completed, KeyOrder)
    requires Ever(s, retired, interval) == LaneRun(before, interval).1 && Chronological(before)
    ensures Ever(next, retired + out, interval) == Ever(s, retired, interval)
  {
    hide OfInterval, SortedBy, LaneRun, KeyOrder, Tile;
    var gone, mine := OfInterval(retired, interval), OfInterval(s.completed, interval);
    OfIntervalConcat(retired, s.completed, interval);
    StreamingEqualsBatch(before, interval);
    var done := LaneRun(before, interval).1;
    assert done == gone + mine;
    forall i, j | 0 <= i < j < |mine| ensures mine[i].start < mine[j].start {
      TilesAscend(done, before, interval, StartOf(before[|before| - 1].tradeTime, interval), |gone| + i, |gone| + j);
      assert done[|gone| + i] == mine[i] && done[|gone| + j] == mine[j];
    }
    DrainKeepsOrder(s.completed, interval);
    OfIntervalConcat(retired, out, interval);
    assert retired + out + [] == retired + out;
  }

  /** Large trades recorded at a price that had been traded. */
  function LargeCount(ops: seq<FlowOp>, price: nat, n: nat): nat
    requires n <= |ops|
  {
    if n == 0 then 0
    else
      LargeCount(ops, price, n - 1)
      + if ops[n - 1] == LargeAt(price) && exists t :: t in TradesOf(ops, n - 1) && t.price == price then 1 else 0
  }

  /** The profile counts exactly these. */
  lemma {:induction false} ProfileCountsLarge(r: FlowRun, cfg: Settings, n: nat, price: nat)
    requires IsRun(r, cfg) && n <= |r.ops|
    ensures var v := r.states[n].volumeByPrice;
      (if price in v then v[price].largeTrades else 0) == LargeCount(r.ops, price, n)
  {
    if n > 0 {
      ProfileCountsLarge(r, cfg, n - 1, price);
      PricesTraded(r, cfg, n - 1, price);
      var s, op := r.states[n - 1], r.ops[n - 1];
      assert FlowNext(s, op, r.states[n], r.outs[n - 1], cfg.intervals, cfg.retentionMs);
      LargeAfterOp(s, op, r.states[n], r.outs[n - 1], cfg, price);
    }
  }

  lemma LargeAfterOp(s: FlowState, op: FlowOp, next: FlowState, out: seq<TimeBucket>, cfg: Settings, price: nat)
    requires FlowNext(s, op, next, out, cfg.intervals, cfg.retentionMs)
    ensures (if price in next.volumeByPrice then next.volumeByPrice[price].largeTrades else 0)
         == (if price in s.volumeByPrice then s.volumeByPrice[price].largeTrades else 0)
            + if op == LargeAt(price) && price in s.volumeByPrice then 1 else 0
  {
    hide LaneStepped, SortedBy, Retained;
  }

  lemma PricesTraded(r: FlowRun, cfg: Settings, n: nat, price: nat)
    requires IsRun(r, cfg) && n <= |r.ops|
    ensures price in r.states[n].volumeByPrice <==> exists t :: t in TradesOf(r.ops, n) && t.price == price
  {
    var volumes := r.states[n].volumeByPrice;
    RunHoldsLanes(r, cfg, n);
    assert price in volumes <==> price in Plain(volumes);
    ProfileEqualsBatch(TradesOf(r.ops, n), price, Count);
  }
}
