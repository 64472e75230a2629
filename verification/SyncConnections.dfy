/** What the buffer holds across connections, and synchronization without a condition on its events. */
module SyncConnections {
  import opened DepthFeed
  import opened Exchange
  import opened Options
  import opened OrderBooks
  import opened Synchronization
  import opened SyncEpisodes
  import opened SyncSafety
  import opened Wire

  /** The events that arrived over the connection that was opened last, in order. */
  function HeardSince(steps: seq<Step>): seq<DepthUpdate> {
    if steps == [] then [] else Hears(HeardSince(steps[..|steps| - 1]), steps[|steps| - 1])
  }

  function Hears(heard: seq<DepthUpdate>, step: Step): seq<DepthUpdate> {
    match step
    case Connect => []
    case Depth(e) => heard + [e]
    case _ => heard
  }

  predicate StretchAt(part: seq<DepthUpdate>, whole: seq<DepthUpdate>, i: nat) {
    i + |part| <= |whole| && part == whole[i..i + |part|]
  }

  /** The buffer is a stretch of these events, and while the synchronizer buffers it is their end. */
  ghost predicate HoldsStretch(s: Sync, heard: seq<DepthUpdate>) {
    && (exists i :: StretchAt(s.buffer, heard, i))
    && (s.phase == Buffering ==> |s.buffer| <= |heard| && StretchAt(s.buffer, heard, |heard| - |s.buffer|))
  }

  lemma EmptyStretch(s: Sync, heard: seq<DepthUpdate>)
    requires s.buffer == []
    ensures HoldsStretch(s, heard)
  {
    assert StretchAt([], heard, |heard|);
  }

  lemma StretchGrows(s: Sync, next: Sync, heard: seq<DepthUpdate>, e: DepthUpdate)
    requires HoldsStretch(s, heard)
    requires if s.phase == Buffering then next.phase == Buffering && next.buffer == s.buffer + [e]
             else next.phase == s.phase && next.buffer == s.buffer
    ensures HoldsStretch(next, heard + [e])
  {
    if s.phase == Buffering {
      assert StretchAt(next.buffer, heard + [e], |heard| - |s.buffer|);
    } else {
      var i :| StretchAt(s.buffer, heard, i);
      assert StretchAt(next.buffer, heard + [e], i);
    }
  }

  lemma StepHoldsStretch(f: Feed, heard: seq<DepthUpdate>, step: Step)
    requires HoldsStretch(f.sync, heard)
    ensures HoldsStretch(Next(f, step).sync, Hears(heard, step))
  {
    hide HoldsStretch, UpdateApplied, SnapshotApplied, EventsApplied, EventsTried, StaleCount, BridgeIndex, Run;
    var next := Next(f, step).sync;
    match step {
      case Connect => EmptyStretch(next, []);
      case Disconnect => StretchKept(f.sync, next, heard);
      case Depth(e) =>
        if f.sync.phase == Ready && LiveProcessed(f.sync, e).1 == PuMismatch {
          EmptyStretch(next, heard + [e]);
        } else {
          StretchGrows(f.sync, next, heard, e);
        }
      case SnapshotRequested => StretchKept(f.sync, next, heard);
      case SnapshotReceived(_, _, _) =>
      case Reconcile(_) => EmptyStretch(next, heard);
      case ReconcileAgain(_) => EmptyStretch(next, heard);
      case FetchFailed => EmptyStretch(next, heard);
    }
  }

  lemma StretchKept(s: Sync, next: Sync, heard: seq<DepthUpdate>)
    requires HoldsStretch(s, heard) && next.buffer == s.buffer && next.phase != Buffering
    ensures HoldsStretch(next, heard)
  {
  }

  /** Over every run, overlapping fetches included: the buffer holds a stretch of the events of the connection
      that was opened last, and none of an earlier one. */
  lemma {:induction false} BufferIsOfConnection(steps: seq<Step>)
    ensures HoldsStretch(RunOf(steps).sync, HeardSince(steps))
  {
    hide HoldsStretch, Next, Hears;
    if steps == [] {
      EmptyStretch(FreshSync, []);
    } else {
      BufferIsOfConnection(steps[..|steps| - 1]);
      StepHoldsStretch(RunOf(steps[..|steps| - 1]), HeardSince(steps[..|steps| - 1]), steps[|steps| - 1]);
    }
  }

  /** Whatever happened before: after a connection was opened, the buffer is exactly what came since, nothing
      counts as applied, and the other counters of the connection start at zero. */
  lemma {:induction false} ConnectionBuffers(steps: seq<Step>, events: seq<DepthUpdate>)
    ensures var s := RunOf(steps + [Connect] + DepthsOf(events)).sync;
      && s.phase == Buffering && s.buffer == events && s.received == |events|
      && s.lastAppliedU == None && s.applied == s.ignored == s.sequenceErrors == 0
    decreases |events|
  {
    var all := steps + [Connect] + DepthsOf(events);
    if events == [] {
      assert all == steps + [Connect];
      OneMoreStep(steps, Connect);
    } else {
      var front, last := events[..|events| - 1], events[|events| - 1];
      var before := steps + [Connect] + DepthsOf(front);
      ConnectionBuffers(steps, front);
      assert all == before + [Depth(last)];
      OneMoreStep(before, Depth(last));
    }
  }

  /** Each event that a connection delivers starts where the one before it ended. */
  ghost predicate ConnectionsContiguous(steps: seq<Step>) {
    steps == []
    || (ConnectionsContiguous(steps[..|steps| - 1]) && ChainedTo(HeardSince(steps), |HeardSince(steps)|))
  }

  lemma {:induction false} ContiguousPrefix(a: seq<Step>, b: seq<Step>)
    requires ConnectionsContiguous(a + b)
    ensures ConnectionsContiguous(a) && ChainedTo(HeardSince(a), |HeardSince(a)|)
    decreases |b|
  {
    if b == [] {
      assert a + b == a;
    } else {
      assert (a + b)[..|a + b| - 1] == a + b[..|b| - 1];
      ContiguousPrefix(a, b[..|b| - 1]);
    }
  }

  lemma StretchIsChained(s: Sync, heard: seq<DepthUpdate>)
    requires HoldsStretch(s, heard) && ChainedTo(heard, |heard|)
    ensures ChainedTo(s.buffer, |s.buffer|)
  {
    var from: nat :| StretchAt(s.buffer, heard, from);
    forall i, j | 0 <= i && j == i + 1 < |s.buffer| ensures s.buffer[j].previousFinalId == s.buffer[i].finalId {
      assert s.buffer[i] == heard[from + i] && s.buffer[j] == heard[from + j];
      assert from + j == (from + i) + 1;
    }
  }

  /** In a chained buffer the pair behind the bridge passes the documented check. */
  lemma ChainedBufferPairs(buffer: seq<DepthUpdate>, id: nat)
    requires ChainedTo(buffer, |buffer|)
    ensures PairChained(buffer, id)
  {
    if HasBridge(buffer, id) {
      var stale := StaleCount(buffer, id);
      var rest := buffer[stale..];
      var bridge := BridgeIndex(rest, id).value;
      var run := RunIn(buffer, id);
      if |run| >= 2 {
        var i, j := stale + bridge, stale + bridge + 1;
        assert run[0] == buffer[i] && run[1] == buffer[j];
      }
    }
  }

  ghost predicate AllDelivered(h: History, episodes: seq<Episode>) {
    forall i | 0 <= i < |episodes| :: EpisodeDelivered(h, episodes[i])
  }

  lemma {:induction false} ContiguousIsGood(h: History, episodes: seq<Episode>)
    requires AllDelivered(h, episodes) && ConnectionsContiguous(Steps(episodes))
    ensures GoodEpisodes(h, episodes, true)
    decreases |episodes|
  {
    hide EpisodeDelivered, StepsOf, HoldsStretch, ChainedTo, PairChained;
    if episodes != [] {
      var before, x := episodes[..|episodes| - 1], episodes[|episodes| - 1];
      ContiguousPrefix(Steps(before), StepsOf(x));
      ContiguousIsGood(h, before);
      BufferIsOfConnection(Steps(before));
      StretchIsChained(RunOf(Steps(before)).sync, HeardSince(Steps(before)));
      if x.Fetched? { ChainedBufferPairs(RunOf(Steps(before)).sync.buffer, x.id); }
    }
  }

  /** Synchronization safety with nothing assumed of any buffer: if every connection delivers contiguous events,
      however many connections there are and whatever is missed between them, then after any run of
      connections, losses, failed requests, depth events and fetches that do not overlap Ready implies the
      exchange's book. */
  lemma ContiguousConnectionsStaySynchronized(h: History, episodes: seq<Episode>)
    requires AllDelivered(h, episodes) && ConnectionsContiguous(Steps(episodes))
    ensures var f := RunOf(Steps(episodes));
      f.sync.phase == Ready ==> f.sync.lastAppliedU.Some? && BookIs(h, f.book, f.sync.lastAppliedU.value)
  {
    hide RunOf, Steps;
    ContiguousIsGood(h, episodes);
    EpisodesStaySynchronized(h, episodes, true);
  }
}
