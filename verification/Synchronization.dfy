/** The state machine that keeps the book in step with the depth stream
    (src/orderbook/synchronizer.rs). */
module Synchronization {
  import opened Options
  import opened Wire

  datatype Phase =
    | Disconnected
    | Connecting
    | Buffering
    | SnapshotLoading
    | Synchronizing
    | Ready
    | ResyncRequired
    | Reconnecting
    | Stopping

  /** The value of a synchronizer. */
  datatype Sync = Sync(
    phase: Phase,
    buffer: seq<DepthUpdate>,
    snapshotId: nat,
    lastAppliedU: Option<nat>,
    received: nat,
    applied: nat,
    ignored: nat,
    sequenceErrors: nat,
    resyncs: nat,
    reconnects: nat)

  const FreshSync := Sync(Disconnected, [], 0, None, 0, 0, 0, 0, 0, 0)

  datatype LiveResult = Apply | Buffered | Stale | PuMismatch | Ignored

  function Connected(s: Sync): Sync {
    s.(phase := Buffering, buffer := [], lastAppliedU := None, received := 0, applied := 0, ignored := 0,
    sequenceErrors := 0)
  }

  function ReconnectStarted(s: Sync): Sync {
    s.(phase := Reconnecting, reconnects := s.reconnects + 1)
  }

  function ResyncTriggered(s: Sync): Sync {
    s.(phase := Buffering, buffer := [], lastAppliedU := None, resyncs := s.resyncs + 1)
  }

  function EventBuffered(s: Sync, e: DepthUpdate): Sync {
    if s.phase == Buffering then s.(received := s.received + 1, buffer := s.buffer + [e]) else s
  }

  /** A live event is applied iff the chain check passes and it is newer than what was applied. */
  function LiveProcessed(s: Sync, e: DepthUpdate): (Sync, LiveResult) {
    var counted := s.(received := s.received + 1);
    match s.phase
    case Ready =>
      if s.lastAppliedU.Some? && e.previousFinalId != s.lastAppliedU.value then
        (counted.(sequenceErrors := s.sequenceErrors + 1), PuMismatch)
      else if s.lastAppliedU.Some? && e.finalId <= s.lastAppliedU.value then
        (counted.(ignored := s.ignored + 1), Stale)
      else
        (counted.(lastAppliedU := Some(e.finalId), applied := s.applied + 1), Apply)
    case Buffering => (EventBuffered(counted, e), Buffered)
    case Synchronizing => (counted, Buffered)
    case _ => (counted.(ignored := s.ignored + 1), Ignored)
  }

  /** The event spans the snapshot id. */
  predicate Bridges(e: DepthUpdate, id: nat) {
    e.firstId <= id <= e.finalId
  }

  /** How many leading events end before the snapshot. */
  function StaleCount(buffer: seq<DepthUpdate>, id: nat): (n: nat)
    ensures n <= |buffer|
    ensures forall i | 0 <= i < n :: buffer[i].finalId < id
    ensures n < |buffer| ==> buffer[n].finalId >= id
  {
    if buffer != [] && buffer[0].finalId < id then 1 + StaleCount(buffer[1..], id) else 0
  }

  /** Index of the first bridging event. */
  function BridgeIndex(events: seq<DepthUpdate>, id: nat): (r: Option<nat>)
    ensures r.Some? ==> r.value < |events| && Bridges(events[r.value], id)
    ensures r.Some? ==> forall i | 0 <= i < r.value :: !Bridges(events[i], id)
    ensures r.None? ==> forall i | 0 <= i < |events| :: !Bridges(events[i], id)
  {
    if events == [] then None
    else if Bridges(events[0], id) then Some(0)
    else
      var rest := BridgeIndex(events[1..], id);
      if rest.Some? then Some(rest.value + 1) else None
  }

  /** Among the first `n` events, each starts where the one before it ended. */
  ghost predicate ChainedTo(events: seq<DepthUpdate>, n: nat)
    requires n <= |events|
  {
    forall i, j | 0 <= i && j == i + 1 < n :: events[j].previousFinalId == events[i].finalId
  }

  /** Length of the longest chained prefix. */
  function ChainLength(events: seq<DepthUpdate>): (n: nat)
    ensures n <= |events| && (events != [] ==> n > 0)
    ensures ChainedTo(events, n)
    ensures 0 < n < |events| ==> events[n].previousFinalId != events[n - 1].finalId
  {
    if |events| <= 1 then |events|
    else if events[1].previousFinalId != events[0].finalId then 1
    else 1 + ChainLength(events[1..])
  }

  lemma ChainLengthUnique(events: seq<DepthUpdate>, n: nat)
    requires n <= |events| && (events != [] ==> n > 0)
    requires ChainedTo(events, n)
    requires 0 < n < |events| ==> events[n].previousFinalId != events[n - 1].finalId
    ensures n == ChainLength(events)
  {
  }

  /** The events that reconciliation hands to the book, from the bridging event on. The pair
      (bridge, next) is not checked: the chain starts at the event after the bridge. */
  function Run(fromBridge: seq<DepthUpdate>): (r: seq<DepthUpdate>)
    requires fromBridge != []
    ensures r != [] && r <= fromBridge
  {
    fromBridge[..1 + ChainLength(fromBridge[1..])]
  }

  lemma RunIsChained(fromBridge: seq<DepthUpdate>)
    requires fromBridge != []
    ensures var run := Run(fromBridge); run[0] == fromBridge[0] && ChainedTo(run[1..], |run| - 1)
  {
    var tail, n := fromBridge[1..], ChainLength(fromBridge[1..]);
    assert forall i | 0 <= i < n :: Run(fromBridge)[1..][i] == tail[i];
  }

  /** Reconciliation with a snapshot: the state after it, and the events to apply unless
      nothing in the buffer bridges the snapshot id. */
  function Reconciled(s: Sync, id: nat): (Sync, Option<seq<DepthUpdate>>) {
    var stale := StaleCount(s.buffer, id);
    var rest := s.buffer[stale..];
    var bridge := BridgeIndex(rest, id);
    if bridge.None? then (Discarded(s, id, stale), None)
    else
      var run := Run(rest[bridge.value..]);
      (Completed(s, id, stale, run), Some(run))
  }

  function Discarded(s: Sync, id: nat, stale: nat): Sync
    requires stale <= |s.buffer|
  {
    s.(snapshotId := id, buffer := s.buffer[stale..], ignored := s.ignored + stale)
  }

  function Completed(s: Sync, id: nat, stale: nat, run: seq<DepthUpdate>): Sync
    requires run != []
  {
    s.(phase := Ready, snapshotId := id, buffer := [], ignored := s.ignored + stale,
    applied := s.applied + |run|, lastAppliedU := Some(run[|run| - 1].finalId))
  }

  class Synchronizer {
    var phase: Phase
    var buffer: seq<DepthUpdate>
    var snapshotId: nat
    var lastAppliedU: Option<nat>
    var received: nat
    var applied: nat
    var ignored: nat
    var sequenceErrors: nat
    var resyncs: nat
    var reconnects: nat

    ghost function View(): Sync
      reads this
    {
      Sync(phase, buffer, snapshotId, lastAppliedU, received, applied, ignored, sequenceErrors, resyncs, reconnects)
    }

    constructor ()
      ensures View() == FreshSync
    {
      phase, buffer, snapshotId, lastAppliedU := Disconnected, [], 0, None;
      received, applied, ignored, sequenceErrors, resyncs, reconnects := 0, 0, 0, 0, 0, 0;
    }

    method OnConnecting()
      modifies this
      ensures View() == old(View()).(phase := Connecting)
    {
      phase := Connecting;
    }

    method OnConnected()
      modifies this
      ensures View() == Connected(old(View()))
    {
      phase := Buffering;
      buffer := [];
      lastAppliedU := None;
      received, applied, ignored, sequenceErrors := 0, 0, 0, 0;
    }

    method OnReconnecting()
      modifies this
      ensures View() == ReconnectStarted(old(View()))
    {
      phase := Reconnecting;
      reconnects := reconnects + 1;
    }

    method OnSnapshotLoading()
      modifies this
      ensures View() == old(View()).(phase := SnapshotLoading)
    {
      phase := SnapshotLoading;
    }

    method BufferEvent(e: DepthUpdate)
      modifies this
      ensures View() == EventBuffered(old(View()), e)
    {
      if phase == Buffering {
        received := received + 1;
        buffer := buffer + [e];
      }
    }

    method ProcessLiveEvent(e: DepthUpdate) returns (r: LiveResult)
      modifies this
      ensures (View(), r) == LiveProcessed(old(View()), e)
    {
      received := received + 1;
      match phase {
        case Ready =>
          if lastAppliedU.Some? {
            if e.previousFinalId != lastAppliedU.value {
              sequenceErrors := sequenceErrors + 1;
              return PuMismatch;
            }
          }
          if lastAppliedU.Some? {
            if e.finalId <= lastAppliedU.value {
              ignored := ignored + 1;
              return Stale;
            }
          }
          lastAppliedU := Some(e.finalId);
          applied := applied + 1;
          r := Apply;
        case Buffering =>
          BufferEvent(e);
          r := Buffered;
        case Synchronizing =>
          r := Buffered;
        case _ =>
          ignored := ignored + 1;
          r := Ignored;
      }
    }

    method Reconcile(id: nat) returns (r: Option<seq<DepthUpdate>>)
      modifies this
      ensures View() == Reconciled(old(View()), id).0
      ensures r == Reconciled(old(View()), id).1
    {
      hide StaleCount, BridgeIndex, Run;
      ghost var before := View();
      ghost var rest := before.buffer[StaleCount(before.buffer, id)..];
      snapshotId := id;
      DropStale(id);
      assert View() == Discarded(before, id, StaleCount(before.buffer, id));
      var bridge := FindBridge(id);
      assert bridge == BridgeIndex(rest, id);
      if bridge.None? {
        return None;
      }
      var events := CollectRun(buffer[bridge.value..]);
      Finish(events);
      r := Some(events);
    }

    method Finish(events: seq<DepthUpdate>)
      requires events != []
      modifies this
      ensures View() == old(View()).(phase := Ready, buffer := [], applied := old(applied) + |events|,
                          lastAppliedU := Some(events[|events| - 1].finalId))
    {
      lastAppliedU := Some(events[|events| - 1].finalId);
      applied := applied + |events|;
      phase := Synchronizing;
      buffer := [];
      phase := Ready;
    }

    /** Step 1: discard events that end before the snapshot. */
    method DropStale(id: nat)
      requires snapshotId == id
      modifies this
      ensures View() == Discarded(old(View()), id, StaleCount(old(buffer), id))
    {
      while buffer != [] && buffer[0].finalId < id
        invariant StaleCount(buffer, id) <= StaleCount(old(buffer), id) <= |old(buffer)|
        invariant buffer == old(buffer)[StaleCount(old(buffer), id) - StaleCount(buffer, id)..]
        invariant View() == old(View()).(buffer := buffer,
                            ignored := old(ignored) + StaleCount(old(buffer), id) - StaleCount(buffer, id))
        decreases |buffer|
      {
        buffer := buffer[1..];
        ignored := ignored + 1;
      }
    }

    /** Step 2: the first bridging event. */
    method FindBridge(id: nat) returns (bridge: Option<nat>)
      ensures bridge == BridgeIndex(buffer, id)
    {
      bridge := None;
      for i := 0 to |buffer|
        invariant forall j | 0 <= j < i :: !Bridges(buffer[j], id)
      {
        if buffer[i].firstId <= id && buffer[i].finalId >= id {
          return Some(i);
        }
      }
    }

    /** Step 3: the bridging event, the event after it unchecked, and the chain that follows. */
    static method CollectRun(fromBridge: seq<DepthUpdate>) returns (events: seq<DepthUpdate>)
      requires fromBridge != []
      ensures events == Run(fromBridge)
    {
      events := [fromBridge[0]];
      var expected: Option<nat> := None;
      ghost var tail := fromBridge[1..];
      var i := 1;
      while i < |fromBridge|
        invariant 1 <= i <= |fromBridge|
        invariant events == fromBridge[..i]
        invariant expected == if i == 1 then None else Some(fromBridge[i - 1].finalId)
        invariant ChainedTo(tail, i - 1)
      {
        var e := fromBridge[i];
        if expected.Some? && e.previousFinalId != expected.value { break; }
        events := events + [e];
        expected := Some(e.finalId);
        i := i + 1;
      }
      ChainLengthUnique(tail, i - 1);
    }

    method TriggerResync()
      modifies this
      ensures View() == ResyncTriggered(old(View()))
    {
      resyncs := resyncs + 1;
      phase := Buffering;
      buffer := [];
      lastAppliedU := None;
    }

    method Shutdown()
      modifies this
      ensures View() == old(View()).(phase := Stopping)
    {
      phase := Stopping;
    }
  }
}
