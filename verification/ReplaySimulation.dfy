/** Recording a live session, loading the rows and replaying them reproduces the live run. */
module ReplaySimulation {
  import opened DepthFeed
  import opened LiveSession
  import opened Options
  import opened Ordering
  import opened OrderBooks
  import opened Replay
  import opened Rows
  import opened Shadow
  import opened Sums
  import opened SyncExactness
  import opened Synchronization
  import opened Trades
  import opened Wire

  /** The replay event that a live input leaves behind, if any. */
  function LogOf(s: LiveState, input: Input): seq<ReplayEvent> {
    match input
    case DepthIn(e) => if LeavesRows(e) then [DepthEvent(s.nextSeq + 1, Reprinted(e))] else []
    case SnapshotIn(id, bids, asks) =>
      if SnapshotApplied(s.feed.book, bids, asks, id).1
      then [SnapshotEvent(s.nextSeq, id, Decoded(Encoded(bids)), Decoded(Encoded(asks)))] else []
    case TradeIn(t) =>
      if Taken(s.intake, t, DUPLICATE_WINDOW).1 == Processed then [TradeEvent(s.nextSeq + 1, t)] else []
    case RejectedIn(_) => []
  }

  function Log(inputs: seq<Input>): seq<ReplayEvent> {
    if inputs == [] then []
    else Log(inputs[..|inputs| - 1]) + LogOf(LiveRun(inputs[..|inputs| - 1]), inputs[|inputs| - 1])
  }

  /** Numbers that recording preserves. */
  ghost predicate Gridded(input: Input) {
    match input
    case DepthIn(e) => GridEvent(e)
    case SnapshotIn(_, bids, asks) => OnGrid(bids) && OnGrid(asks)
    case TradeIn(_) => true
    case RejectedIn(_) => true
  }

  ghost predicate AllGridded(inputs: seq<Input>) {
    forall i | 0 <= i < |inputs| :: Gridded(inputs[i])
  }

  /** A depth event has at least one level that is recorded. */
  predicate LeavesTrace(input: Input) {
    input.DepthIn? ==> LeavesRows(input.update)
  }

  ghost predicate AllLeaveTrace(inputs: seq<Input>) {
    forall i | 0 <= i < |inputs| :: LeavesTrace(inputs[i])
  }

  function ReprintedEvents(events: seq<DepthUpdate>): (r: seq<DepthUpdate>)
    ensures |r| == |events|
    ensures forall i | 0 <= i < |r| :: r[i] == Reprinted(events[i])
  {
    seq(|events|, i requires 0 <= i < |events| => Reprinted(events[i]))
  }

  function ReprintedSync(s: Sync): Sync {
    s.(buffer := ReprintedEvents(s.buffer))
  }

  function ReprintedFeed(f: Feed): Feed {
    Feed(ReprintedSync(f.sync), f.book)
  }

  ghost predicate GridFeed(f: Feed) {
    GridEvents(f.sync.buffer)
  }

  /** A depth event and its reprint take corresponding feeds to corresponding feeds. */
  lemma DepthStepReprints(f: Feed, e: DepthUpdate)
    requires GridFeed(f) && GridEvent(e)
    ensures GridFeed(DepthStep(f, e).0)
    ensures DepthStep(ReprintedFeed(f), Reprinted(e))
         == (ReprintedFeed(DepthStep(f, e).0), DepthStep(f, e).1, DepthStep(f, e).2)
  {
    hide UpdateApplied, GridEvent, Encoded, Decoded;
    if f.sync.phase == Ready {
      ReprintKeepsEffect(f.book, e);
    } else if f.sync.phase == Buffering {
      assert ReprintedEvents(f.sync.buffer + [e]) == ReprintedEvents(f.sync.buffer) + [Reprinted(e)];
    }
  }

  /** A replay never asks an uninitialized book to apply an update. */
  lemma DepthStepAccepted(f: Feed, e: DepthUpdate)
    requires GridEvent(e) && (f.sync.phase == Ready ==> f.book.initialized)
    ensures DepthStep(f, e).2
    ensures DepthStep(f, e).0.sync.phase == Ready ==> DepthStep(f, e).0.book.initialized
  {
    hide UpdateApplied;
    GridAccepted(f.book, e);
  }

  lemma GridAccepted(b: Book, e: DepthUpdate)
    requires GridEvent(e)
    ensures var (after, ok) := UpdateApplied(b, e.bids, e.asks, e.finalId);
      ok == b.initialized && after.initialized == b.initialized
  {
    ReprintKeepsLevels(e.bids);
    ReprintKeepsLevels(e.asks);
    UpdateAccepted(b, e);
  }

  lemma {:induction false} LoadByLevels(m: Ladder, a: seq<Quote>, b: seq<Quote>)
    requires WellFormed(a) && WellFormed(b) && LevelsOf(a) == LevelsOf(b)
    ensures LoadQuotes(m, a) == LoadQuotes(m, b) && LoadQuotes(m, a).1
    decreases |a|
  {
    if a != [] {
      assert LevelsOf(a)[0] == LevelsOf(b)[0];
      assert LevelsOf(a[1..]) == LevelsOf(a)[1..] == LevelsOf(b[1..]);
      var level := LevelOf(a[0]);
      LoadByLevels(if level.quantity > 0 then m[level.price := level.quantity] else m, a[1..], b[1..]);
    }
  }

  lemma SnapshotAppliedReprints(b: Book, bids: seq<Quote>, asks: seq<Quote>, id: nat)
    requires OnGrid(bids) && OnGrid(asks)
    ensures SnapshotApplied(b, Decoded(Encoded(bids)), Decoded(Encoded(asks)), id) == SnapshotApplied(b, bids, asks, id)
    ensures SnapshotApplied(b, bids, asks, id).1
  {
    ReprintKeepsLevels(bids);
    ReprintKeepsLevels(asks);
    LoadByLevels(map[], Decoded(Encoded(bids)), bids);
    LoadByLevels(map[], Decoded(Encoded(asks)), asks);
  }

  lemma {:induction false} EventsAppliedReprints(b: Book, events: seq<DepthUpdate>)
    requires GridEvents(events)
    ensures EventsApplied(b, ReprintedEvents(events)) == EventsApplied(b, events)
    ensures b.initialized ==> EventsApplied(b, events).1 && EventsApplied(b, events).0.initialized
    decreases |events|
  {
    if events != [] {
      var e := events[0];
      ReprintKeepsEffect(b, e);
      GridAccepted(b, e);
      assert ReprintedEvents(events)[1..] == ReprintedEvents(events[1..]);
      EventsAppliedReprints(UpdateApplied(b, e.bids, e.asks, e.finalId).0, events[1..]);
    }
  }

  ghost predicate GridEvents(events: seq<DepthUpdate>) {
    forall i | 0 <= i < |events| :: GridEvent(events[i])
  }

  /** Reconciling corresponding buffers discards, bridges and runs alike. */
  lemma ShapeReprints(buffer: seq<DepthUpdate>, id: nat)
    ensures StaleCount(ReprintedEvents(buffer), id) == StaleCount(buffer, id)
    ensures ReprintedEvents(buffer)[StaleCount(buffer, id)..] == ReprintedEvents(buffer[StaleCount(buffer, id)..])
    ensures BridgeIndex(ReprintedEvents(buffer[StaleCount(buffer, id)..]), id)
         == BridgeIndex(buffer[StaleCount(buffer, id)..], id)
  {
    assert SameIds(ReprintedEvents(buffer), buffer);
    SameStaleCount(ReprintedEvents(buffer), buffer, id);
    var rest := buffer[StaleCount(buffer, id)..];
    SameBridge(ReprintedEvents(rest), rest, id);
  }

  lemma ReconciledReprints(s: Sync, id: nat)
    requires GridEvents(s.buffer)
    ensures var (after, events) := Reconciled(s, id);
      && Reconciled(ReprintedSync(s), id).0 == ReprintedSync(after)
      && Reconciled(ReprintedSync(s), id).1 == (if events.None? then None else Some(ReprintedEvents(events.value)))
      && (events.Some? ==> GridEvents(events.value))
      && GridEvents(after.buffer)
  {
    hide StaleCount, BridgeIndex, Reprinted, GridEvent, Completed, Discarded, Run, ReprintedEvents;
    assert ReprintedSync(s).buffer == ReprintedEvents(s.buffer);
    ShapeReprints(s.buffer, id);
    var stale := StaleCount(s.buffer, id);
    var rest := s.buffer[stale..];
    var bridge := BridgeIndex(rest, id);
    if bridge.Some? {
      var run := Run(rest[bridge.value..]);
      RunReprints(rest, bridge.value);
      CompletedReprints(s, id, stale, run);
      CompletedClears(s, id, stale, run);
      assert GridEvents(run);
    } else {
      DiscardedReprints(s, id, stale);
    }
  }

  lemma CompletedReprints(s: Sync, id: nat, stale: nat, run: seq<DepthUpdate>)
    requires run != []
    ensures Completed(ReprintedSync(s), id, stale, ReprintedEvents(run)) == ReprintedSync(Completed(s, id, stale, run))
  {
    assert ReprintedEvents([]) == [];
    assert ReprintedEvents(run)[|run| - 1].finalId == run[|run| - 1].finalId;
  }

  lemma CompletedClears(s: Sync, id: nat, stale: nat, run: seq<DepthUpdate>)
    requires run != []
    ensures GridEvents(Completed(s, id, stale, run).buffer)
  {
  }

  lemma DiscardedReprints(s: Sync, id: nat, stale: nat)
    requires stale <= |s.buffer|
    ensures Discarded(ReprintedSync(s), id, stale) == ReprintedSync(Discarded(s, id, stale))
    ensures GridEvents(s.buffer) ==> GridEvents(Discarded(s, id, stale).buffer)
  {
    assert ReprintedEvents(s.buffer[stale..]) == ReprintedEvents(s.buffer)[stale..];
  }

  lemma ReprintedIds(events: seq<DepthUpdate>)
    ensures SameIds(ReprintedEvents(events), events)
  {
  }

  lemma RunReprints(rest: seq<DepthUpdate>, bridge: nat)
    requires bridge < |rest|
    ensures Run(ReprintedEvents(rest)[bridge..]) == ReprintedEvents(Run(rest[bridge..]))
    ensures forall e | e in Run(rest[bridge..]) :: e in rest
  {
    hide Reprinted, ChainLength;
    var from, reprinted := rest[bridge..], ReprintedEvents(rest)[bridge..];
    assert reprinted == ReprintedEvents(from);
    assert reprinted[1..] == ReprintedEvents(from[1..]);
    ChainReprints(from[1..]);
    assert forall e | e in from :: e in rest;
  }

  lemma ChainReprints(events: seq<DepthUpdate>)
    ensures ChainLength(ReprintedEvents(events)) == ChainLength(events) <= |events|
  {
    hide Reprinted;
    ReprintedIds(events);
    ChainLengthUnique(ReprintedEvents(events), ChainLength(events));
  }

  lemma SnapshotStepReprints(f: Feed, bids: seq<Quote>, asks: seq<Quote>, id: nat)
    requires GridFeed(f) && OnGrid(bids) && OnGrid(asks)
    ensures GridFeed(SnapshotStep(f, bids, asks, id).0)
    ensures SnapshotStep(ReprintedFeed(f), Decoded(Encoded(bids)), Decoded(Encoded(asks)), id)
         == (ReprintedFeed(SnapshotStep(f, bids, asks, id).0), true)
    ensures SnapshotStep(f, bids, asks, id).1 && SnapshotStep(f, bids, asks, id).0.book.initialized
  {
    hide Reconciled, Encoded, EventsApplied, GridEvent;
    var loading := f.sync.(phase := SnapshotLoading);
    SnapshotAppliedReprints(f.book, bids, asks, id);
    var book := SnapshotApplied(f.book, bids, asks, id).0;
    ReconciledReprints(loading, id);
    assert ReprintedSync(f.sync).(phase := SnapshotLoading) == ReprintedSync(loading);
    var events := Reconciled(loading, id).1;
    if events.Some? {
      EventsAppliedReprints(book, events.value);
    }
  }

  /** The replay is in the state of the live run: same book, same synchronizer up to the reprint of
      buffered numbers, same accepted trades, same totals. */
  ghost predicate Follows(live: LiveState, replay: ReplayState) {
    && GridFeed(live.feed)
    && replay.feed == ReprintedFeed(live.feed)
    && replay.intake.lastId == live.intake.lastId
    && replay.intake.recentIds == live.intake.recentIds
    && replay.intake.processed == live.intake.processed
    && replay.totals == live.totals
    && (live.feed.sync.phase == Ready ==> live.feed.book.initialized)
  }

  function ReplayAll(s: ReplayState, events: seq<ReplayEvent>): Option<ReplayState> {
    ReplayFrom(s, events, None, None)
  }

  lemma InputFollowed(live: LiveState, replay: ReplayState, input: Input)
    requires Follows(live, replay) && Gridded(input) && LeavesTrace(input)
    ensures ReplayAll(replay, LogOf(live, input)).Some?
    ensures Follows(LiveNext(live, input), ReplayAll(replay, LogOf(live, input)).value)
  {
    hide DepthStep, SnapshotStep, Encoded, RowsOf, Seeded, LenientLevels;
    var log := LogOf(live, input);
    if log != [] {
      assert log[1..] == [];
      assert ReplayAll(replay, log)
          == (var next := ReplayNext(replay, log[0]); if next.None? then None else ReplayAll(next.value, []));
    }
    match input {
      case DepthIn(e) =>
        DepthStepReprints(live.feed, e);
        DepthStepAccepted(live.feed, e);
      case SnapshotIn(id, bids, asks) =>
        SnapshotStepReprints(live.feed, bids, asks, id);
        SnapshotAppliedReprints(live.feed.book, bids, asks, id);
      case TradeIn(t) =>
      case RejectedIn(_) =>
    }
  }

  lemma {:induction false} ReplayConcat(s: ReplayState, a: seq<ReplayEvent>, b: seq<ReplayEvent>)
    requires ReplayAll(s, a).Some?
    ensures ReplayAll(s, a + b) == ReplayAll(ReplayAll(s, a).value, b)
    decreases |a|
  {
    hide ReplayNext;
    if a == [] {
      assert a + b == b;
    } else {
      assert (a + b)[1..] == a[1..] + b;
      ReplayConcat(ReplayNext(s, a[0]).value, a[1..], b);
    }
  }

  lemma {:induction false} LogFollowed(inputs: seq<Input>)
    requires AllGridded(inputs) && AllLeaveTrace(inputs)
    ensures ReplayAll(ReplayStart, Log(inputs)).Some?
    ensures Follows(LiveRun(inputs), ReplayAll(ReplayStart, Log(inputs)).value)
  {
    if inputs != [] {
      var before, input := inputs[..|inputs| - 1], inputs[|inputs| - 1];
      assert Gridded(input) && LeavesTrace(input);
      LogFollowed(before);
      InputFollowed(LiveRun(before), ReplayAll(ReplayStart, Log(before)).value, input);
      ReplayConcat(ReplayStart, Log(before), LogOf(LiveRun(before), input));
    }
  }

  ghost predicate NumbersBelow(log: seq<ReplayEvent>, bound: nat) {
    && (forall i | 0 <= i < |log| :: log[i].seqNo < bound)
    && (forall i, j | 0 <= i < j < |log| :: log[i].seqNo < log[j].seqNo)
  }

  ghost predicate UpdatesBelow(updates: seq<NumberedUpdate>, bound: nat) {
    Recorded(updates) && forall i | 0 <= i < |updates| :: updates[i].seqNo < bound
  }

  ghost function Stored(s: LiveState, updates: seq<NumberedUpdate>): multiset<ReplayEvent> {
    multiset(SnapshotEvents(s.snapshotRows)) + multiset(DepthEvents(AllReprinted(updates)))
    + multiset(TradeEvents(s.tradeRows))
  }

  /** The tables hold exactly the events of the log, whose numbers ascend. */
  ghost predicate Archived(s: LiveState, updates: seq<NumberedUpdate>, log: seq<ReplayEvent>) {
    && s.levelRows == Flattened(updates)
    && UpdatesBelow(updates, s.nextSeq)
    && NumbersBelow(log, s.nextSeq)
    && Stored(s, updates) == multiset(log)
  }

  lemma {:induction false} FlattenedAppend(updates: seq<NumberedUpdate>, u: NumberedUpdate)
    ensures Flattened(updates + [u]) == Flattened(updates) + RowsOf(u.seqNo, u.update)
  {
    hide RowsOf;
    if updates == [] {
      assert Flattened([u][1..]) == [];
      assert [] + [u] == [u];
    } else {
      assert (updates + [u])[1..] == updates[1..] + [u];
      FlattenedAppend(updates[1..], u);
    }
  }

  lemma DepthArchived(s: LiveState, updates: seq<NumberedUpdate>, log: seq<ReplayEvent>, e: DepthUpdate)
    requires Archived(s, updates, log) && LeavesRows(e)
    ensures Archived(DepthTaken(s, e), updates + [NumberedUpdate(s.nextSeq + 1, e)], log + LogOf(s, DepthIn(e)))
  {
    hide RowsOf, Reprinted, DepthStep, LeavesRows;
    var u := NumberedUpdate(s.nextSeq + 1, e);
    FlattenedAppend(updates, u);
    UpdatesAppend(updates, u, s.nextSeq);
    LogAppend(log, DepthEvent(s.nextSeq + 1, Reprinted(e)), s.nextSeq);
    StoredAppend(s, updates, u);
    var after := DepthTaken(s, e);
    assert after.levelRows == s.levelRows + RowsOf(u.seqNo, e);
    assert Stored(after, updates + [u]) == Stored(s, updates + [u]);
    assert multiset(log + LogOf(s, DepthIn(e))) == multiset(log) + multiset{DepthEvent(u.seqNo, Reprinted(e))};
  }

  /** An event without a level that parses leaves no row, and only the number moves on. */
  lemma EmptyArchived(s: LiveState, updates: seq<NumberedUpdate>, log: seq<ReplayEvent>, e: DepthUpdate)
    requires Archived(s, updates, log) && !LeavesRows(e)
    ensures Archived(DepthTaken(s, e), updates, log)
  {
    hide Reprinted, DepthStep, Flattened, Recorded;
    assert RowsOf(s.nextSeq + 1, e) == [] by { assert RowsOf(0, e) == []; }
    assert s.levelRows + [] == s.levelRows;
    assert Stored(DepthTaken(s, e), updates) == Stored(s, updates);
  }

  lemma UpdatesAppend(updates: seq<NumberedUpdate>, u: NumberedUpdate, bound: nat)
    requires UpdatesBelow(updates, bound) && LeavesRows(u.update) && u.seqNo == bound + 1
    ensures UpdatesBelow(updates + [u], bound + 2)
  {
    hide LeavesRows;
    var more := updates + [u];
    assert forall i | 0 <= i < |updates| :: more[i] == updates[i];
  }

  lemma LogAppend(log: seq<ReplayEvent>, ev: ReplayEvent, bound: nat)
    requires NumbersBelow(log, bound) && bound <= ev.seqNo <= bound + 1
    ensures NumbersBelow(log + [ev], bound + 2) && (ev.seqNo == bound ==> NumbersBelow(log + [ev], bound + 1))
  {
  }

  lemma StoredAppend(s: LiveState, updates: seq<NumberedUpdate>, u: NumberedUpdate)
    ensures Stored(s, updates + [u]) == Stored(s, updates) + multiset{DepthEvent(u.seqNo, Reprinted(u.update))}
  {
    hide Reprinted;
    var ev := DepthEvent(u.seqNo, Reprinted(u.update));
    assert DepthEvents(AllReprinted(updates + [u])) == DepthEvents(AllReprinted(updates)) + [ev];
    assert multiset(DepthEvents(AllReprinted(updates)) + [ev])
        == multiset(DepthEvents(AllReprinted(updates))) + multiset{ev};
  }

  lemma SnapshotArchived(s: LiveState, updates: seq<NumberedUpdate>, log: seq<ReplayEvent>, id: nat,
                         bids: seq<Quote>, asks: seq<Quote>)
    requires Archived(s, updates, log)
    ensures Archived(SnapshotTaken(s, id, bids, asks), updates, log + LogOf(s, SnapshotIn(id, bids, asks)))
  {
    hide SnapshotApplied, SnapshotStep, RowsOf, Reprinted, Recorded, Flattened, Encoded;
    var after, more := SnapshotTaken(s, id, bids, asks), LogOf(s, SnapshotIn(id, bids, asks));
    if SnapshotApplied(s.feed.book, bids, asks, id).1 {
      var row := SnapshotRow(s.nextSeq, id, Encoded(bids), Encoded(asks));
      LogAppend(log, more[0], s.nextSeq);
      assert SnapshotEvents(s.snapshotRows + [row]) == SnapshotEvents(s.snapshotRows) + more;
    } else {
      assert log + more == log;
      assert Stored(after, updates) == Stored(s, updates);
    }
  }

  lemma TradeArchived(s: LiveState, updates: seq<NumberedUpdate>, log: seq<ReplayEvent>, t: Trade)
    requires Archived(s, updates, log)
    ensures Archived(TradeTaken(s, t), updates, log + LogOf(s, TradeIn(t)))
  {
    hide Taken, RowsOf, Reprinted, Recorded, Flattened;
    if Taken(s.intake, t, DUPLICATE_WINDOW).1 == Processed {
      var row := TradeRow(s.nextSeq + 1, t);
      LogAppend(log, LogOf(s, TradeIn(t))[0], s.nextSeq);
      assert TradeEvents(s.tradeRows + [row]) == TradeEvents(s.tradeRows) + LogOf(s, TradeIn(t));
    } else {
      assert log + [] == log;
    }
  }

  /** The depth events of a run with the numbers they were recorded under. */
  ghost function Numbered(inputs: seq<Input>): seq<NumberedUpdate> {
    if inputs == [] then []
    else
      Numbered(inputs[..|inputs| - 1]) + NumberedOf(LiveRun(inputs[..|inputs| - 1]), inputs[|inputs| - 1])
  }

  function NumberedOf(s: LiveState, input: Input): seq<NumberedUpdate> {
    if input.DepthIn? && LeavesRows(input.update) then [NumberedUpdate(s.nextSeq + 1, input.update)] else []
  }

  lemma {:induction false} RunArchived(inputs: seq<Input>)
    ensures Archived(LiveRun(inputs), Numbered(inputs), Log(inputs))
  {
    if inputs == [] {
      StartArchived();
    } else {
      var before, input := inputs[..|inputs| - 1], inputs[|inputs| - 1];
      RunArchived(before);
      InputArchived(LiveRun(before), Numbered(before), Log(before), input);
    }
  }

  lemma StartArchived()
    ensures Archived(LiveStart, [], [])
  {
    assert Stored(LiveStart, []) == multiset{};
  }

  lemma InputArchived(s: LiveState, updates: seq<NumberedUpdate>, log: seq<ReplayEvent>, input: Input)
    requires Archived(s, updates, log)
    ensures Archived(LiveNext(s, input), updates + NumberedOf(s, input), log + LogOf(s, input))
  {
    hide Archived, RowsOf, Reprinted, Encoded, Taken, DepthStep, SnapshotStep, LeavesRows, LogOf;
    match input {
      case DepthIn(e) =>
        if LeavesRows(e) {
          DepthArchived(s, updates, log, e);
          assert NumberedOf(s, input) == [NumberedUpdate(s.nextSeq + 1, e)];
        } else {
          EmptyArchived(s, updates, log, e);
          assert LogOf(s, input) == [] by { EmptyLog(s, e); }
          assert updates + NumberedOf(s, input) == updates && log + [] == log;
        }
      case SnapshotIn(id, bids, asks) =>
        SnapshotArchived(s, updates, log, id, bids, asks);
        assert updates + NumberedOf(s, input) == updates;
      case TradeIn(t) =>
        TradeArchived(s, updates, log, t);
        assert updates + NumberedOf(s, input) == updates;
      case RejectedIn(_) =>
        NumberArchived(s, updates, log);
        assert LogOf(s, input) == [] by { RejectedLog(s, input); }
        assert updates + NumberedOf(s, input) == updates && log + [] == log;
    }
  }

  lemma RejectedLog(s: LiveState, input: Input)
    requires input.RejectedIn?
    ensures LogOf(s, input) == []
  {
  }

  lemma NumberArchived(s: LiveState, updates: seq<NumberedUpdate>, log: seq<ReplayEvent>)
    requires Archived(s, updates, log)
    ensures Archived(s.(nextSeq := s.nextSeq + 1), updates, log)
  {
    hide Flattened, Recorded;
    assert Stored(s.(nextSeq := s.nextSeq + 1), updates) == Stored(s, updates);
  }

  lemma EmptyLog(s: LiveState, e: DepthUpdate)
    requires !LeavesRows(e)
    ensures LogOf(s, DepthIn(e)) == []
  {
  }

  /** For every run whatsoever, loading the recorded tables gives back the log, in the order in which it was
      written. */
  lemma LoadingRestoresLog(inputs: seq<Input>)
    ensures var s := LiveRun(inputs); Session(s.snapshotRows, s.levelRows, s.tradeRows) == Log(inputs)
  {
    RunArchived(inputs);
    ArchiveRestores(LiveRun(inputs), Numbered(inputs), Log(inputs));
  }

  lemma ArchiveRestores(s: LiveState, updates: seq<NumberedUpdate>, log: seq<ReplayEvent>)
    requires Archived(s, updates, log)
    ensures Session(s.snapshotRows, s.levelRows, s.tradeRows) == log
  {
    hide Flattened, Regrouped, SortedBy, IsSorted, Recorded, AllReprinted, StrictlySorted;
    RegroupInvertsFlatten(updates);
    var merged := SnapshotEvents(s.snapshotRows) + DepthEvents(AllReprinted(updates)) + TradeEvents(s.tradeRows);
    assert multiset(merged) == Stored(s, updates);
    NumbersOrder(log, s.nextSeq);
    SortedByIsSorted(merged, SeqOrder);
    SortingRestores(log, SortedBy(merged, SeqOrder), SeqOrder);
  }

  lemma NumbersOrder(log: seq<ReplayEvent>, bound: nat)
    requires NumbersBelow(log, bound)
    ensures StrictlySorted(log, SeqOrder) && TotalPreorder(SeqOrder)
  {
  }

  /** The shadow book shows what the order book shows, and neither stores a zero quantity. */
  ghost predicate Lockstep(s: ReplayState) {
    && NoZeros(s.feed.book.bids) && NoZeros(s.feed.book.asks)
    && s.shadow.bids == s.feed.book.bids
    && s.shadow.asks == s.feed.book.asks
  }

  lemma {:induction false} EventsKeepNoZeros(b: Book, events: seq<DepthUpdate>)
    requires NoZeros(b.bids) && NoZeros(b.asks)
    ensures var r := EventsApplied(b, events).0; NoZeros(r.bids) && NoZeros(r.asks)
    decreases |events|
  {
    if events != [] {
      var e := events[0];
      BookKeepsNoZeros(b, e.bids, e.asks, e.finalId);
      EventsKeepNoZeros(UpdateApplied(b, e.bids, e.asks, e.finalId).0, events[1..]);
    }
  }

  lemma {:induction false} AppliedMeansOverlay(m: Ladder, quotes: seq<Quote>)
    requires ApplyQuotes(m, quotes).1
    ensures ApplyQuotes(m, quotes).0 == Overlay(m, LenientLevels(quotes))
    decreases |quotes|
  {
    if quotes != [] {
      var level := LevelOf(quotes[0]);
      assert LenientLevels(quotes)[0] == level;
      assert LenientLevels(quotes)[1..] == LenientLevels(quotes[1..]);
      AppliedMeansOverlay(SetLevel(m, level.price, level.quantity), quotes[1..]);
    }
  }

  /** Every event that a replay gets through keeps the two books in lockstep, reconciliations that
      fail and resynchronizations included. */
  lemma EventKeepsLockstep(s: ReplayState, ev: ReplayEvent)
    requires Lockstep(s)
    ensures ReplayNext(s, ev).Some? ==> Lockstep(ReplayNext(s, ev).value)
  {
    hide AfterSnapshot, AfterDepth;
    if ReplayNext(s, ev).Some? {
      match ev {
        case SnapshotEvent(_, id, bids, asks) => SnapshotKeepsLockstep(s, id, bids, asks);
        case DepthEvent(_, e) => DepthKeepsLockstep(s, e);
        case TradeEvent(_, t) =>
      }
    }
  }

  lemma SnapshotKeepsLockstep(s: ReplayState, id: nat, bids: seq<Quote>, asks: seq<Quote>)
    requires Lockstep(s) && AfterSnapshot(s, id, bids, asks).Some?
    ensures Lockstep(AfterSnapshot(s, id, bids, asks).value)
  {
    hide SnapshotApplied, Reconciled, EventsApplied, Listing, Reversed, Loaded;
    BookKeepsNoZeros(s.feed.book, bids, asks, id);
    var book := SnapshotApplied(s.feed.book, bids, asks, id).0;
    var events := Reconciled(s.feed.sync.(phase := SnapshotLoading), id).1;
    if events.Some? { EventsKeepNoZeros(book, events.value); }
    var after := SnapshotStep(s.feed, bids, asks, id).0.book;
    LoadingListingCopies(after.bids, Reversed(Listing(after.bids)));
    LoadingListingCopies(after.asks, Listing(after.asks));
  }

  lemma DepthKeepsLockstep(s: ReplayState, e: DepthUpdate)
    requires Lockstep(s) && AfterDepth(s, e).Some?
    ensures Lockstep(AfterDepth(s, e).value)
  {
    hide ApplyQuotes, Overlay, LenientLevels, EventBuffered;
    BookKeepsNoZeros(s.feed.book, e.bids, e.asks, e.finalId);
    if s.feed.sync.phase == Ready && DepthStep(s.feed, e).1 == Apply {
      AppliedMeansOverlay(s.feed.book.bids, e.bids);
      AppliedMeansOverlay(s.feed.book.asks, e.asks);
    }
  }

  /** Lockstep at every iteration of a replay: after any prefix of any event stream. */
  lemma {:induction false} ShadowInLockstep(s: ReplayState, events: seq<ReplayEvent>, first: Option<nat>,
                                            last: Option<nat>)
    requires Lockstep(s) && ReplayFrom(s, events, first, last).Some?
    ensures Lockstep(ReplayFrom(s, events, first, last).value)
    decreases |events|
  {
    if events != [] {
      if first.Some? && events[0].seqNo < first.value {
        ShadowInLockstep(s, events[1..], first, last);
      } else if !(last.Some? && events[0].seqNo > last.value) {
        EventKeepsLockstep(s, events[0]);
        ShadowInLockstep(ReplayNext(s, events[0]).value, events[1..], first, last);
      }
    }
  }

  ghost predicate PricedInside(s: ReplayState) {
    var price := MicropriceOf(s.shadow.bids, s.shadow.asks, s.shadow.ready);
    price.Some? ==>
      var bid, ask := GreatestKey(s.feed.book.bids.Keys), LeastKey(s.feed.book.asks.Keys);
      && bid.Some? && ask.Some?
      && bid.value * price.value.den < price.value.num < ask.value * price.value.den
  }

  /** A replay that completes has the shadow book equal to the order book, and the microprice of the
      analytics lies strictly inside the spread whenever the book is two-sided and not crossed. */
  lemma ReplayEndsInLockstep(events: seq<ReplayEvent>, first: Option<nat>, last: Option<nat>)
    ensures var r := ReplayFrom(ReplayStart, events, first, last);
      r.Some? ==> Lockstep(r.value) && PricedInside(r.value)
  {
    hide ReplayFrom;
    if ReplayFrom(ReplayStart, events, first, last).Some? {
      ShadowInLockstep(ReplayStart, events, first, last);
      var s := ReplayFrom(ReplayStart, events, first, last).value;
      MicropriceBetweenBest(s.shadow.bids, s.shadow.asks, s.shadow.ready);
    }
  }
}
