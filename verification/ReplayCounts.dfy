/** The counters of a replay against the counters that its parts keep themselves. */
module ReplayCounts {
  import opened DepthFeed
  import opened Options
  import opened OrderBooks
  import opened Replay
  import opened ReplaySimulation
  import opened Synchronization
  import opened Trades
  import opened Wire

  /** A ready synchronizer finds the event chained to, but no newer than, what it applied last. */
  predicate IsStale(s: Sync, e: DepthUpdate) {
    s.phase == Ready && s.lastAppliedU == Some(e.previousFinalId) && e.finalId <= e.previousFinalId
  }

  /** Events of each kind in a replay, and the stale ones. */
  datatype Kinds = Kinds(snapshots: nat, depth: nat, trades: nat, stale: nat)

  function KindsIn(s: ReplayState, events: seq<ReplayEvent>): Kinds
    decreases |events|
  {
    if events == [] then Kinds(0, 0, 0, 0)
    else
      var next := ReplayNext(s, events[0]);
      var k := if next.Some? then KindsIn(next.value, events[1..]) else Kinds(0, 0, 0, 0);
      match events[0]
      case SnapshotEvent(_, _, _, _) => k.(snapshots := k.snapshots + 1)
      case DepthEvent(_, e) =>
        k.(depth := k.depth + 1, stale := if IsStale(s.feed.sync, e) then k.stale + 1 else k.stale)
      case TradeEvent(_, _) => k.(trades := k.trades + 1)
  }

  /** Applied events are those the synchronizer applied, sequence errors its resynchronizations, depth events those
      it received, and trades are split as the processor splits them. */
  predicate Agrees(s: ReplayState) {
    && (s.feed.sync.phase == Buffering || s.feed.sync.phase == Ready)
    && (s.feed.sync.phase == Ready ==> s.feed.sync.lastAppliedU.Some?)
    && s.counters.eventsApplied == s.feed.sync.applied && s.counters.sequenceErrors == s.feed.sync.resyncs
    && s.counters.depthEvents == s.feed.sync.received
    && s.counters.tradesProcessed == s.intake.processed
    && s.counters.tradesSkipped == s.intake.duplicates + s.intake.stale
    && s.intake.received == s.intake.processed + s.intake.duplicates + s.intake.stale
  }

  ghost predicate Advances(before: Replay.Counters, after: Replay.Counters, k: Kinds) {
    && after.snapshotsApplied == before.snapshotsApplied + k.snapshots
    && after.depthEvents == before.depthEvents + k.depth
    && after.eventsIgnored == before.eventsIgnored + k.stale
    && after.tradesProcessed + after.tradesSkipped == before.tradesProcessed + before.tradesSkipped + k.trades
  }

  lemma DepthAgrees(s: ReplayState, e: DepthUpdate)
    requires Agrees(s) && AfterDepth(s, e).Some?
    ensures Agrees(AfterDepth(s, e).value)
    ensures var stale := if IsStale(s.feed.sync, e) then 1 else 0;
      Advances(s.counters, AfterDepth(s, e).value.counters, Kinds(0, 1, 0, stale))
  {
    hide UpdateApplied, LenientLevels;
  }

  lemma SnapshotAgrees(s: ReplayState, id: nat, bids: seq<Quote>, asks: seq<Quote>)
    requires Agrees(s) && AfterSnapshot(s, id, bids, asks).Some?
    ensures Agrees(AfterSnapshot(s, id, bids, asks).value)
    ensures Advances(s.counters, AfterSnapshot(s, id, bids, asks).value.counters, Kinds(1, 0, 0, 0))
  {
    hide SnapshotApplied, EventsApplied, StaleCount, BridgeIndex, Run, Seeded;
  }

  lemma TradeAgrees(s: ReplayState, t: Trade)
    requires Agrees(s)
    ensures Agrees(AfterTrade(s, t)) && Advances(s.counters, AfterTrade(s, t).counters, Kinds(0, 0, 1, 0))
  {
    hide LastOf;
  }

  lemma {:induction false} CountersFrom(s: ReplayState, events: seq<ReplayEvent>)
    requires Agrees(s) && ReplayAll(s, events).Some?
    ensures Agrees(ReplayAll(s, events).value)
    ensures Advances(s.counters, ReplayAll(s, events).value.counters, KindsIn(s, events))
    decreases |events|
  {
    hide AfterDepth, AfterSnapshot, AfterTrade, Agrees, IsStale;
    if events != [] {
      var next := ReplayNext(s, events[0]).value;
      match events[0] {
        case SnapshotEvent(_, id, bids, asks) => SnapshotAgrees(s, id, bids, asks);
        case DepthEvent(_, e) => DepthAgrees(s, e);
        case TradeEvent(_, t) => TradeAgrees(s, t);
      }
      CountersFrom(next, events[1..]);
    }
  }

  /** Every replay that completes: its counters are those of its parts, and count the events of each kind. */
  lemma ReplayCountersAgree(events: seq<ReplayEvent>)
    requires ReplayAll(ReplayStart, events).Some?
    ensures var r, k := ReplayAll(ReplayStart, events).value, KindsIn(ReplayStart, events);
      && Agrees(r)
      && r.counters.snapshotsApplied == k.snapshots && r.counters.depthEvents == k.depth
      && r.counters.eventsIgnored == k.stale && r.counters.tradesProcessed + r.counters.tradesSkipped == k.trades
  {
    hide ReplayAll, KindsIn, Agrees;
    StartAgrees();
    CountersFrom(ReplayStart, events);
  }

  lemma StartAgrees()
    ensures Agrees(ReplayStart) && ReplayStart.counters == Replay.Counters(0, 0, 0, 0, 0, 0, 0)
  {
  }
}
