/** Replaying a range of sequence numbers is replaying the events of that range. */
module ReplayRanges {
  import opened Options
  import opened Replay
  import opened ReplaySimulation
  import opened Rows
  import opened Sums

  predicate Chosen(ev: ReplayEvent, first: Option<nat>, last: Option<nat>) {
    (first.None? || first.value <= ev.seqNo) && (last.None? || ev.seqNo <= last.value)
  }

  /** The events with a number in the range, both ends included. */
  function ChosenOf(events: seq<ReplayEvent>, first: Option<nat>, last: Option<nat>): seq<ReplayEvent> {
    if events == [] then []
    else (if Chosen(events[0], first, last) then [events[0]] else []) + ChosenOf(events[1..], first, last)
  }

  lemma {:induction false} NoneChosen(events: seq<ReplayEvent>, first: Option<nat>, last: Option<nat>)
    requires forall i | 0 <= i < |events| :: !Chosen(events[i], first, last)
    ensures ChosenOf(events, first, last) == []
  {
    if events != [] { NoneChosen(events[1..], first, last); }
  }

  lemma {:induction false} ReplaySorted(s: ReplayState, events: seq<ReplayEvent>, first: Option<nat>, last: Option<nat>)
    requires IsSorted(events, SeqOrder)
    ensures ReplayFrom(s, events, first, last) == ReplayAll(s, ChosenOf(events, first, last))
    decreases |events|
  {
    hide ReplayNext, IsSorted;
    if events != [] {
      var ev, rest := events[0], events[1..];
      SortedTail(events);
      if first.Some? && ev.seqNo < first.value {
        ReplaySorted(s, rest, first, last);
        assert ChosenOf(events, first, last) == ChosenOf(rest, first, last);
      } else if last.Some? && ev.seqNo > last.value {
        NoneChosen(events, first, last);
      } else {
        var more := ChosenOf(rest, first, last);
        assert ([ev] + more)[1..] == more;
        if ReplayNext(s, ev).Some? { ReplaySorted(ReplayNext(s, ev).value, rest, first, last); }
      }
    }
  }

  lemma SortedTail(events: seq<ReplayEvent>)
    requires IsSorted(events, SeqOrder) && events != []
    ensures IsSorted(events[1..], SeqOrder)
    ensures forall i | 0 <= i < |events| :: events[0].seqNo <= events[i].seqNo
  {
    assert forall i | 0 < i < |events| :: SeqOrder(events[0], events[i]);
  }

  /** For every stored session. */
  lemma RangeReplaysItsEvents(s: ReplayState, snapshots: seq<SnapshotRow>, levels: seq<LevelRow>, trades: seq<TradeRow>,
                              first: Option<nat>, last: Option<nat>)
    ensures var events := Session(snapshots, levels, trades);
      ReplayFrom(s, events, first, last) == ReplayAll(s, ChosenOf(events, first, last))
  {
    hide ReplayFrom, ChosenOf;
    SessionSorted(snapshots, levels, trades);
    ReplaySorted(s, Session(snapshots, levels, trades), first, last);
  }

  lemma SessionSorted(snapshots: seq<SnapshotRow>, levels: seq<LevelRow>, trades: seq<TradeRow>)
    ensures IsSorted(Session(snapshots, levels, trades), SeqOrder)
  {
    hide Regrouped;
    SortedByIsSorted(SnapshotEvents(snapshots) + DepthEvents(Regrouped(levels)) + TradeEvents(trades), SeqOrder);
  }
}
