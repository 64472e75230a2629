/** Progress of synchronization on a lossless stream, and the interleaving that defeats it. */
module SyncProgress {
  import opened DepthFeed
  import opened Exchange
  import opened Options
  import opened Synchronization
  import opened SyncEpisodes
  import opened SyncSafety
  import opened Wire

  /** Consecutive events of a stream that loses nothing. */
  ghost predicate Lossless(events: seq<DepthUpdate>) {
    && (forall i | 0 <= i < |events| ::
          events[i].firstId == events[i].previousFinalId + 1 && events[i].firstId <= events[i].finalId)
    && ChainedTo(events, |events|)
  }

  /** The ids of the events, taken together, include the snapshot id. */
  ghost predicate Covers(events: seq<DepthUpdate>, id: nat) {
    events != [] && events[0].firstId <= id <= events[|events| - 1].finalId
  }

  lemma {:induction false} StalePrefixEnds(events: seq<DepthUpdate>, id: nat)
    requires Lossless(events) && Covers(events, id)
    ensures StaleCount(events, id) < |events| && Bridges(events[StaleCount(events, id)], id)
  {
    if events[0].finalId < id {
      assert |events| > 1;
      assert events[1].previousFinalId == events[0].finalId;
      StalePrefixEnds(events[1..], id);
    }
  }

  /** On a lossless buffer that covers the snapshot, reconciliation succeeds and hands out exactly
      the suffix from the first event that does not end before the snapshot. */
  lemma LosslessReconciles(s: Sync, id: nat)
    requires Lossless(s.buffer) && Covers(s.buffer, id)
    ensures var (after, events) := Reconciled(s, id);
      && events == Some(s.buffer[StaleCount(s.buffer, id)..])
      && after.phase == Ready && after.buffer == []
      && after.lastAppliedU == Some(s.buffer[|s.buffer| - 1].finalId)
    ensures PairOverlaps(s.buffer, id)
  {
    StalePrefixEnds(s.buffer, id);
    var rest := s.buffer[StaleCount(s.buffer, id)..];
    assert BridgeIndex(rest, id) == Some(0);
    assert rest[0..] == rest;
    WholeChainRuns(rest);
    LosslessAscends(rest);
    if |rest| >= 2 { assert rest[1].previousFinalId == rest[0].finalId; }
  }

  lemma WholeChainRuns(events: seq<DepthUpdate>)
    requires events != [] && ChainedTo(events, |events|)
    ensures Run(events) == events
  {
    var tail := events[1..];
    assert ChainedTo(tail, |tail|);
    ChainLengthUnique(tail, |tail|);
  }

  lemma {:induction false} LosslessAscends(events: seq<DepthUpdate>)
    requires Lossless(events) && events != []
    ensures events[0].finalId <= events[|events| - 1].finalId
  {
    if |events| > 1 {
      assert events[1].previousFinalId == events[0].finalId;
      LosslessAscends(events[1..]);
    }
  }

  /** Every event of the list is applied by a ready synchronizer, none is stale or a mismatch. */
  ghost predicate AllApplied(s: Sync, events: seq<DepthUpdate>)
    decreases |events|
  {
    events == [] || (LiveProcessed(s, events[0]).1 == Apply && AllApplied(LiveProcessed(s, events[0]).0, events[1..]))
  }

  lemma {:induction false} LosslessApplies(s: Sync, events: seq<DepthUpdate>)
    requires s.phase == Ready && s.lastAppliedU.Some? && Lossless(events)
    requires events != [] ==> events[0].previousFinalId == s.lastAppliedU.value
    ensures AllApplied(s, events)
    decreases |events|
  {
    if events != [] {
      var rest := events[1..];
      if rest != [] { assert rest[0] == events[1]; }
      LosslessApplies(LiveProcessed(s, events[0]).0, rest);
    }
  }

  /** Once reconciled, the rest of the stream is applied event by event. */
  lemma LosslessStaysReady(s: Sync, id: nat, live: seq<DepthUpdate>)
    requires Lossless(s.buffer + live) && Covers(s.buffer, id)
    ensures AllApplied(Reconciled(s, id).0, live)
  {
    LosslessSplits(s.buffer, live);
    LosslessReconciles(s, id);
    LosslessApplies(Reconciled(s, id).0, live);
  }

  lemma ChainSplits(a: seq<DepthUpdate>, b: seq<DepthUpdate>)
    requires ChainedTo(a + b, |a + b|) && a != []
    ensures ChainedTo(a, |a|) && ChainedTo(b, |b|)
    ensures b != [] ==> b[0].previousFinalId == a[|a| - 1].finalId
  {
    var all, n := a + b, |a|;
    forall i, j | 0 <= i && j == i + 1 < |a| ensures a[j].previousFinalId == a[i].finalId {
      assert a[i] == all[i] && a[j] == all[j];
    }
    forall i, j | 0 <= i && j == i + 1 < |b| ensures b[j].previousFinalId == b[i].finalId {
      assert b[i] == all[n + i] && b[j] == all[n + j];
    }
    if b != [] { assert b[0] == all[n] && a[n - 1] == all[n - 1]; }
  }

  lemma LosslessSplits(a: seq<DepthUpdate>, b: seq<DepthUpdate>)
    requires Lossless(a + b) && a != []
    ensures Lossless(a) && Lossless(b)
    ensures b != [] ==> b[0].previousFinalId == a[|a| - 1].finalId
  {
    var all, n := a + b, |a|;
    assert forall i | 0 <= i < |a| :: all[i] == a[i];
    assert forall i | 0 <= i < |b| :: b[i] == all[n + i];
    ChainSplits(a, b);
  }

  /** A connection that is lost after the snapshot was loaded and before it is reconciled leaves a
      ready synchronizer over a book that is not initialized. */
  lemma DisconnectBeforeReconcile(f: Feed, id: nat)
    requires HasBridge(f.sync.buffer, id)
    ensures var g := Next(Next(f, Disconnect), Reconcile(id));
      g.sync.phase == Ready && g.sync.lastAppliedU.Some? && g.book == f.book.(initialized := false)
  {
    hide StaleCount, BridgeIndex;
    var lost := Next(f, Disconnect);
    var run := Reconciled(lost.sync, id).1.value;
    assert EventsApplied(lost.book, run) == (lost.book, false);
  }

  /** The ids continue from `last` without a gap. */
  predicate Continues(events: seq<DepthUpdate>, last: nat)
    decreases |events|
  {
    events == []
    || (events[0].previousFinalId == last && last < events[0].finalId && Continues(events[1..], events[0].finalId))
  }

  /** From there on every later event of the chain counts as applied while the book refuses it: the
      synchronizer stays ready and moves on to the end of the chain, the book stays where it was. */
  lemma {:induction false} UninitializedBookFallsBehind(g: Feed, events: seq<DepthUpdate>)
    requires g.sync.phase == Ready && g.sync.lastAppliedU.Some? && !g.book.initialized
    requires Continues(events, g.sync.lastAppliedU.value)
    ensures var r := DepthSteps(g, events);
      && r.book == g.book && r.sync.phase == Ready
      && r.sync.applied == g.sync.applied + |events|
      && r.sync.lastAppliedU == if events == [] then g.sync.lastAppliedU else Some(events[|events| - 1].finalId)
    decreases |events|
  {
    if events != [] {
      var rest := events[1..];
      UninitializedBookFallsBehind(Next(g, Depth(events[0])), rest);
      assert rest != [] ==> rest[|rest| - 1] == events[|events| - 1];
    }
  }

  /** Both together, from the start of the program: the connection is lost while the first snapshot is
      loaded, and then every later event of the stream comes. */
  lemma LostConnectionRun(steps: seq<Step>, id: nat, events: seq<DepthUpdate>)
    requires HasBridge(RunOf(steps).sync.buffer, id)
    requires Continues(events, RunIn(RunOf(steps).sync.buffer, id)[|RunIn(RunOf(steps).sync.buffer, id)| - 1].finalId)
    ensures var f := DepthSteps(RunOf(steps + [Disconnect, Reconcile(id)]), events);
      f.sync.phase == Ready && f.book == RunOf(steps).book.(initialized := false)
  {
    hide HasBridge, RunIn, Next, RunOf, DepthSteps, Continues;
    var f := RunOf(steps);
    TwoMoreSteps(steps, Disconnect, Reconcile(id));
    DisconnectBeforeReconcile(f, id);
    DisconnectKeepsBuffer(f);
    ReconciledRun(Next(f, Disconnect), id);
    UninitializedBookFallsBehind(Next(Next(f, Disconnect), Reconcile(id)), events);
  }

  lemma TwoMoreSteps(steps: seq<Step>, x: Step, y: Step)
    ensures RunOf(steps + [x, y]) == Next(Next(RunOf(steps), x), y)
  {
    hide Next;
    assert steps + [x, y] == steps + [x] + [y];
    OneMoreStep(steps, x);
    OneMoreStep(steps + [x], y);
  }

  lemma DisconnectKeepsBuffer(f: Feed)
    ensures Next(f, Disconnect).sync.buffer == f.sync.buffer
  {
  }

  /** Such a run exists: one event is buffered and one snapshot loaded. */
  lemma LostConnectionIsReachable()
    ensures var steps := OverlappingFetches[..4] + [Disconnect, Reconcile(1)];
      && (forall i | 0 <= i < |steps| :: Delivered(ThreeChanges, steps[i]))
      && RunOf(steps).sync.phase == Ready && !RunOf(steps).book.initialized
  {
    hide Faithful, FaithfulSnapshot, Next;
    OverlapDelivered();
    FirstLoads();
    ShortRuns([FirstEvent]);
    LostConnectionRun(OverlappingFetches[..4], 1, []);
  }
}
