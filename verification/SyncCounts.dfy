/** The counters of the synchronizer over whole runs. */
module SyncCounts {
  import opened DepthFeed
  import opened Options
  import opened OrderBooks
  import opened Synchronization
  import opened SyncSafety
  import opened Wire

  /** Lost connections; resynchronizations; and since the last connection was opened: depth events that the
      synchronizer took in, and buffered events that it discarded without applying or ignoring them. Last, the id of
      the latest snapshot that was reconciled with. */
  datatype Tally = Tally(lost: nat, resyncs: nat, heard: nat, discarded: nat, asked: nat)

  function TallyOf(steps: seq<Step>): Tally {
    if steps == [] then Tally(0, 0, 0, 0, 0)
    else Tallied(TallyOf(steps[..|steps| - 1]), RunOf(steps[..|steps| - 1]), steps[|steps| - 1])
  }

  function Tallied(t: Tally, f: Feed, step: Step): Tally {
    match step
    case Connect => t.(heard := 0, discarded := 0)
    case Disconnect => t.(lost := t.lost + 1)
    case Depth(e) =>
      if f.sync.phase == Buffering then t.(heard := t.heard + 1)
      else if f.sync.phase != Ready then t
      else if f.sync.lastAppliedU.Some? && e.previousFinalId != f.sync.lastAppliedU.value then
        t.(heard := t.heard + 1, resyncs := t.resyncs + 1, discarded := t.discarded + |f.sync.buffer|)
      else t.(heard := t.heard + 1)
    case Reconcile(id) => ReconcileTallied(t, f.sync.buffer, id)
    case ReconcileAgain(id) => ReconcileTallied(t, f.sync.buffer, id)
    case FetchFailed => t.(resyncs := t.resyncs + 1, discarded := t.discarded + |f.sync.buffer|)
    case _ => t
  }

  /** Without a bridging event all but the events before the snapshot are discarded, otherwise those that are
      neither before it nor in the run. */
  function ReconcileTallied(t: Tally, buffer: seq<DepthUpdate>, id: nat): Tally {
    var before := StaleCount(buffer, id);
    if !HasBridge(buffer, id) then
      t.(asked := id, resyncs := t.resyncs + 1, discarded := t.discarded + |buffer| - before)
    else
      RunInside(buffer, id);
      t.(asked := id, discarded := t.discarded + |buffer| - before - |RunIn(buffer, id)|)
  }

  lemma RunInside(buffer: seq<DepthUpdate>, id: nat)
    requires HasBridge(buffer, id)
    ensures StaleCount(buffer, id) + |RunIn(buffer, id)| <= |buffer|
  {
  }

  /** Every event taken in is applied, ignored, a sequence error, still in the buffer, or was discarded. */
  predicate Balances(s: Sync, t: Tally) {
    && s.snapshotId == t.asked && s.reconnects == t.lost && s.resyncs == t.resyncs && s.received == t.heard
    && s.received == s.applied + s.ignored + s.sequenceErrors + |s.buffer| + t.discarded
  }

  lemma StepBalances(f: Feed, t: Tally, step: Step)
    requires Balances(f.sync, t)
    ensures Balances(Next(f, step).sync, Tallied(t, f, step))
  {
    hide UpdateApplied, SnapshotApplied, EventsApplied, EventsTried, StaleCount, BridgeIndex, Run;
  }

  /** Over every run the counters balance: reconnects and resynchronizations are as many as happened, and no event
      that was taken in is unaccounted for. */
  lemma {:induction false} CountersBalance(steps: seq<Step>)
    ensures Balances(RunOf(steps).sync, TallyOf(steps))
  {
    hide Next, Tallied;
    if steps != [] {
      CountersBalance(steps[..|steps| - 1]);
      StepBalances(RunOf(steps[..|steps| - 1]), TallyOf(steps[..|steps| - 1]), steps[|steps| - 1]);
    }
  }

  /** What one live event does in any phase: the verdict, the last applied id, and where the event went. An event that
      is handed over while buffering is counted twice. */
  lemma LiveEventExactly(s: Sync, e: DepthUpdate)
    ensures var (r, verdict) := LiveProcessed(s, e);
      var chained := s.lastAppliedU == None || s.lastAppliedU == Some(e.previousFinalId);
      var newer := s.lastAppliedU == None || s.lastAppliedU.value < e.finalId;
      && verdict == (match s.phase
                     case Ready => if !chained then PuMismatch else if newer then Apply else Stale
                     case Buffering => Buffered
                     case Synchronizing => Buffered
                     case _ => Ignored)
      && r.phase == s.phase && r.snapshotId == s.snapshotId && r.resyncs == s.resyncs && r.reconnects == s.reconnects
      && r.lastAppliedU == (if verdict == Apply then Some(e.finalId) else s.lastAppliedU)
      && r.buffer == (if s.phase == Buffering then s.buffer + [e] else s.buffer)
      && r.received == s.received + (if s.phase == Buffering then 2 else 1)
      && r.received - r.applied - r.ignored - r.sequenceErrors - |r.buffer|
         == s.received - s.applied - s.ignored - s.sequenceErrors - |s.buffer| + (if verdict == Buffered then 1 else 0)
      && r.applied >= s.applied && r.ignored >= s.ignored && r.sequenceErrors >= s.sequenceErrors
      && (r.applied > s.applied <==> verdict == Apply)
      && (r.sequenceErrors > s.sequenceErrors <==> verdict == PuMismatch)
  {
  }
}
