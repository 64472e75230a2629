/** Where the trade stream is cut into clusters, in terms of times and prices alone. */
module ClusterCuts {
  import opened Arithmetic
  import opened Clusters
  import opened ClusterRuns
  import opened Options
  import opened Wire

  /** The trade comes too late after the time `end`, or too far above or below the price `last`. */
  predicate OutOfReach(end: nat, last: nat, t: Trade, p: Proximity) {
    t.tradeTime > end + p.window || t.price > last + p.range || last > t.price + p.range
  }

  /** One trade: it closes the open cluster if and only if it is out of reach of its last trade, and joins it
      otherwise. */
  lemma TradeClosesExactly(c: Cluster, t: Trade, p: Proximity)
    ensures Closes(Some(c), t, p) <==> OutOfReach(c.end, c.lastPrice, t, p)
    ensures !Closes(None, t, p)
    ensures Joined(Some(c), t, p).count == if OutOfReach(c.end, c.lastPrice, t, p) then 1 else c.count + 1
    ensures Joined(None, t, p).count == 1
  {
    hide Grown, Started;
    GrownCounts(c, t);
    GrownCounts(Started(t), t);
    StartedEmpty(t);
  }

  lemma GrownCounts(c: Cluster, t: Trade)
    ensures Grown(c, t).count == c.count + 1
  {
  }

  lemma StartedEmpty(t: Trade)
    ensures Started(t).count == 0
  {
  }

  lemma NearExactly(a: Trade, b: Trade, p: Proximity)
    ensures Near(a, b, p) <==> !OutOfReach(a.tradeTime, a.price, b, p)
  {
  }

  /** A prune drops exactly the leading clusters that ended more than the retention before it. */
  lemma PruneDropsExactly(s: Tracker, now: nat, cfg: Settings)
    ensures var r := Next(s, PruneDue(now), cfg);
      exists n :: 0 <= n <= |s.closed| && r == s.(closed := s.closed[n..])
        && (forall i | 0 <= i < n :: s.closed[i].end + cfg.retention < now)
        && (n < |s.closed| ==> s.closed[n].end + cfg.retention >= now)
  {
    var n := Expired(s.closed, Saturating(now, cfg.retention));
    assert n <= |s.closed| && Next(s, PruneDue(now), cfg) == s.(closed := s.closed[n..]);
  }

  /** Positions in the trade stream at which the open cluster was flushed. */
  function FlushedAt(signals: seq<Signal>, n: nat): set<nat>
    requires n <= |signals|
  {
    if n == 0 then {}
    else FlushedAt(signals, n - 1) + if signals[n - 1].Flush? then {|Stream(signals, n - 1)|} else {}
  }

  /** Positions at which the runs start. */
  function StartsOf(runs: seq<seq<Trade>>): set<nat> {
    if runs == [] then {} else StartsOf(runs[..|runs| - 1]) + {|Concatenated(runs[..|runs| - 1])|}
  }

  function RunsOf(c: Cut): seq<seq<Trade>> {
    if c.current == [] then c.ended else c.ended + [c.current]
  }

  lemma StartsAppend(runs: seq<seq<Trade>>, run: seq<Trade>)
    ensures StartsOf(runs + [run]) == StartsOf(runs) + {|Concatenated(runs)|}
  {
    assert (runs + [run])[..|runs|] == runs;
  }

  /** Inside the stream a run starts at a flushed position and where a trade is out of reach of the one before
      it, and nowhere else. */
  ghost predicate StartsExactly(starts: set<nat>, stream: seq<Trade>, flushed: set<nat>, p: Proximity) {
    && (forall k | k in starts :: k <= |stream|)
    && (forall k | k in flushed :: k <= |stream|)
    && (forall k | 0 < k < |stream| :: StartsAt(starts, stream, flushed, p, k))
  }

  predicate StartsAt(starts: set<nat>, stream: seq<Trade>, flushed: set<nat>, p: Proximity, k: nat)
    requires 0 < k < |stream|
  {
    var before := stream[k - 1];
    k in starts <==> k in flushed || OutOfReach(before.tradeTime, before.price, stream[k], p)
  }

  ghost predicate CutExactly(c: Cut, stream: seq<Trade>, flushed: set<nat>, p: Proximity) {
    && Concatenated(RunsOf(c)) == stream
    && |stream| !in StartsOf(RunsOf(c))
    && (c.current == [] <==> stream == [] || |stream| in flushed)
    && StartsExactly(StartsOf(RunsOf(c)), stream, flushed, p)
  }

  lemma StartAdded(starts: set<nat>, stream: seq<Trade>, flushed: set<nat>, t: Trade, p: Proximity, cut: bool)
    requires StartsExactly(starts, stream, flushed, p) && |stream| !in starts
    requires stream != [] ==>
      var last := stream[|stream| - 1];
      cut <==> |stream| in flushed || OutOfReach(last.tradeTime, last.price, t, p)
    ensures StartsExactly(if cut then starts + {|stream|} else starts, stream + [t], flushed, p)
  {
    hide OutOfReach;
    var all, after := stream + [t], if cut then starts + {|stream|} else starts;
    forall k | 0 < k < |all| ensures StartsAt(after, all, flushed, p, k) {
      assert all[k - 1] == stream[k - 1];
      if k < |stream| { assert StartsAt(starts, stream, flushed, p, k); }
    }
  }

  lemma LastOfRuns(runs: seq<seq<Trade>>, run: seq<Trade>)
    requires run != []
    ensures var all := Concatenated(runs + [run]);
      all == Concatenated(runs) + run && all[|all| - 1] == Last(run)
  {
    hide Concatenated;
    ConcatenatedAppend(runs, run);
    var before := Concatenated(runs);
    assert (before + run)[|before| + |run| - 1] == run[|run| - 1];
  }

  lemma TradeCuts(c: Cut, stream: seq<Trade>, flushed: set<nat>, t: Trade, p: Proximity)
    requires CutExactly(c, stream, flushed, p)
    ensures CutExactly(CutStep(c, Traded(t), p), stream + [t], flushed, p)
  {
    hide OutOfReach, Near, StartsExactly, Concatenated, StartsOf;
    var next, starts := CutStep(c, Traded(t), p), StartsOf(RunsOf(c));
    NoneBeyond(starts, stream, flushed, p);
    if c.current == [] {
      assert RunsOf(next) == c.ended + [[t]];
      LastOfRuns(c.ended, [t]);
      StartsAppend(c.ended, [t]);
      StartAdded(starts, stream, flushed, t, p, true);
    } else {
      NearExactly(Last(c.current), t, p);
      LastOfRuns(c.ended, c.current);
      StartsAppend(c.ended, c.current);
      if Near(Last(c.current), t, p) {
        assert RunsOf(next) == c.ended + [c.current + [t]];
        LastOfRuns(c.ended, c.current + [t]);
        StartsAppend(c.ended, c.current + [t]);
        StartAdded(starts, stream, flushed, t, p, false);
      } else {
        assert RunsOf(next) == RunsOf(c) + [[t]];
        LastOfRuns(RunsOf(c), [t]);
        StartsAppend(RunsOf(c), [t]);
        StartAdded(starts, stream, flushed, t, p, true);
      }
    }
  }

  lemma NoneBeyond(starts: set<nat>, stream: seq<Trade>, flushed: set<nat>, p: Proximity)
    requires StartsExactly(starts, stream, flushed, p)
    ensures |stream| + 1 !in starts && |stream| + 1 !in flushed
  {
    hide OutOfReach;
  }

  lemma FlushCuts(c: Cut, stream: seq<Trade>, flushed: set<nat>, p: Proximity)
    requires CutExactly(c, stream, flushed, p)
    ensures CutExactly(CutStep(c, Flush, p), stream, flushed + {|stream|}, p)
  {
    hide Concatenated, StartsOf;
    assert RunsOf(CutStep(c, Flush, p)) == RunsOf(c);
    var starts, more := StartsOf(RunsOf(c)), flushed + {|stream|};
    forall k | 0 < k < |stream| ensures StartsAt(starts, stream, more, p, k) {
      assert StartsAt(starts, stream, flushed, p, k);
    }
  }

  /** The cut of every stream, flushes and prunes included, is maximal and no finer than that: inside the stream
      a new cluster starts exactly at the flushes and at the trades that are out of reach of the trade before
      them. */
  lemma {:induction false} CutIsExact(signals: seq<Signal>, cfg: Settings, n: nat)
    requires n <= |signals|
    ensures CutExactly(CutAt(signals, cfg, n), Stream(signals, n), FlushedAt(signals, n), cfg.proximity)
  {
    hide CutExactly, CutStep;
    if n == 0 {
      NothingCut(cfg.proximity);
    } else {
      CutIsExact(signals, cfg, n - 1);
      var c, stream, flushed := CutAt(signals, cfg, n - 1), Stream(signals, n - 1), FlushedAt(signals, n - 1);
      assert stream + [] == stream && flushed + {} == flushed;
      match signals[n - 1] {
        case Traded(t) => TradeCuts(c, stream, flushed, t, cfg.proximity);
        case Flush => FlushCuts(c, stream, flushed, cfg.proximity);
        case PruneDue(now) => PruneCutsNothing(c, now, cfg.proximity);
      }
    }
  }

  lemma PruneCutsNothing(c: Cut, now: nat, p: Proximity)
    ensures CutStep(c, PruneDue(now), p) == c
  {
  }

  lemma NothingCut(p: Proximity)
    ensures CutExactly(Cut([], []), [], {}, p)
  {
  }
}
