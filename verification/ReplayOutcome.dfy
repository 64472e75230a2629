/** What a replay of a recorded run ends with, and exactly when it is the live run's own end. */
module ReplayOutcome {
  import opened DepthFeed
  import opened Flow
  import opened LiveSession
  import opened Options
  import opened OrderBooks
  import opened Replay
  import opened ReplaySimulation
  import opened Rows
  import opened Shadow
  import opened Synchronization
  import opened Trades
  import opened Wire

  function TradeOf(input: Input): seq<Trade> {
    if input.TradeIn? then [input.trade] else []
  }

  /** The trade messages of a live run. */
  function TradesIn(inputs: seq<Input>): seq<Trade> {
    if inputs == [] then [] else TradesIn(inputs[..|inputs| - 1]) + TradeOf(inputs[|inputs| - 1])
  }

  function LoggedTrade(ev: ReplayEvent): seq<Trade> {
    if ev.TradeEvent? then [ev.trade] else []
  }

  /** The trades of an event log. */
  function TradesLogged(events: seq<ReplayEvent>): seq<Trade> {
    if events == [] then [] else TradesLogged(events[..|events| - 1]) + LoggedTrade(events[|events| - 1])
  }

  /** The trades that a processor accepts from a stream. */
  function AcceptedOf(trades: seq<Trade>): seq<Trade> {
    Intaken(trades, DUPLICATE_WINDOW).1
  }

  lemma IntakeAppend(trades: seq<Trade>, t: Trade)
    ensures var (s, accepted) := Intaken(trades, DUPLICATE_WINDOW);
      Intaken(trades + [t], DUPLICATE_WINDOW)
      == (Taken(s, t, DUPLICATE_WINDOW).0,
          if Taken(s, t, DUPLICATE_WINDOW).1 == Processed then accepted + [t] else accepted)
  {
    assert (trades + [t])[..|trades|] == trades;
  }

  lemma {:induction false} LoggedConcat(a: seq<ReplayEvent>, b: seq<ReplayEvent>)
    ensures TradesLogged(a + b) == TradesLogged(a) + TradesLogged(b)
    decreases |b|
  {
    if b == [] {
      assert a + b == a;
    } else {
      assert (a + b)[..|a + b| - 1] == a + b[..|b| - 1];
      LoggedConcat(a, b[..|b| - 1]);
    }
  }

  lemma InputTaken(s: LiveState, input: Input)
    ensures LiveNext(s, input).intake
         == if input.TradeIn? then Taken(s.intake, input.trade, DUPLICATE_WINDOW).0 else s.intake
    ensures TradesLogged(LogOf(s, input))
         == if input.TradeIn? && Taken(s.intake, input.trade, DUPLICATE_WINDOW).1 == Processed then [input.trade]
            else []
  {
    hide Taken, DepthStep, SnapshotStep, SnapshotApplied, RowsOf, Encoded, LeavesRows, TotalsAfter;
    LoggedOne(LogOf(s, input));
  }

  /** The live intake is that of its trade messages, and what is logged is what it accepted. */
  lemma {:induction false} LogHoldsAccepted(inputs: seq<Input>)
    ensures LiveRun(inputs).intake == Intaken(TradesIn(inputs), DUPLICATE_WINDOW).0
    ensures TradesLogged(Log(inputs)) == AcceptedOf(TradesIn(inputs))
  {
    hide Taken, LiveNext, LogOf, TradesLogged, Intaken;
    if inputs == [] {
      NoTrades();
    } else {
      var before, input := inputs[..|inputs| - 1], inputs[|inputs| - 1];
      LogHoldsAccepted(before);
      InputTaken(LiveRun(before), input);
      LoggedConcat(Log(before), LogOf(LiveRun(before), input));
      if input.TradeIn? {
        IntakeAppend(TradesIn(before), input.trade);
        assert AcceptedOf(TradesIn(before)) + [] == AcceptedOf(TradesIn(before));
      } else {
        assert TradesIn(inputs) == TradesIn(before);
        assert AcceptedOf(TradesIn(before)) + [] == AcceptedOf(TradesIn(before));
      }
    }
  }

  lemma NoTrades()
    ensures Intaken([], DUPLICATE_WINDOW) == (EmptyIntake, []) && TradesLogged([]) == []
  {
  }

  lemma LoggedOne(events: seq<ReplayEvent>)
    requires |events| <= 1
    ensures TradesLogged(events) == if events == [] then [] else LoggedTrade(events[0])
  {
    if events != [] { assert events[..0] == []; }
  }

  /** A replay takes in the trades of its events, and skips those that are not accepted. */
  ghost predicate TakesIn(r: ReplayState, events: seq<ReplayEvent>) {
    && r.intake == Intaken(TradesLogged(events), DUPLICATE_WINDOW).0
    && r.counters.tradesProcessed == |AcceptedOf(TradesLogged(events))|
    && r.counters.tradesProcessed + r.counters.tradesSkipped == |TradesLogged(events)|
  }

  lemma {:induction false} ReplayTakesIn(events: seq<ReplayEvent>)
    requires ReplayAll(ReplayStart, events).Some?
    ensures TakesIn(ReplayAll(ReplayStart, events).value, events)
    decreases |events|
  {
    hide ReplayNext, TakesIn;
    if events == [] {
      StartTakesIn();
    } else {
      var before, ev := events[..|events| - 1], events[|events| - 1];
      assert events == before + [ev];
      PrefixReplays(ReplayStart, before, [ev]);
      ReplayTakesIn(before);
      var r := ReplayAll(ReplayStart, before).value;
      ReplayConcat(ReplayStart, before, [ev]);
      OneReplayed(r, ev);
      EventTakesIn(r, before, ev);
    }
  }

  lemma StartTakesIn()
    ensures TakesIn(ReplayStart, [])
  {
  }

  lemma OneReplayed(r: ReplayState, ev: ReplayEvent)
    ensures ReplayAll(r, [ev]) == ReplayNext(r, ev)
  {
    hide ReplayNext;
    assert [ev][1..] == [];
    var next := ReplayNext(r, ev);
    if next.Some? { assert ReplayAll(next.value, []) == Some(next.value); }
    assert ReplayAll(r, [ev]) == if next.None? then None else ReplayAll(next.value, [ev][1..]);
  }

  lemma {:induction false} PrefixReplays(s: ReplayState, a: seq<ReplayEvent>, b: seq<ReplayEvent>)
    requires ReplayAll(s, a + b).Some?
    ensures ReplayAll(s, a).Some?
    decreases |a|
  {
    hide ReplayNext;
    if a != [] {
      assert (a + b)[1..] == a[1..] + b;
      PrefixReplays(ReplayNext(s, a[0]).value, a[1..], b);
    }
  }

  lemma OthersTakeNothing(r: ReplayState, ev: ReplayEvent)
    requires !ev.TradeEvent? && ReplayNext(r, ev).Some?
    ensures var next := ReplayNext(r, ev).value;
      && next.intake == r.intake
      && next.counters.tradesProcessed == r.counters.tradesProcessed
      && next.counters.tradesSkipped == r.counters.tradesSkipped
  {
    hide DepthStep, SnapshotStep, Seeded, LenientLevels, ShadowUpdate;
  }

  lemma EventTakesIn(r: ReplayState, before: seq<ReplayEvent>, ev: ReplayEvent)
    requires TakesIn(r, before) && ReplayNext(r, ev).Some?
    ensures TakesIn(ReplayNext(r, ev).value, before + [ev])
  {
    hide Taken, AfterDepth, AfterSnapshot, Intaken;
    assert (before + [ev])[..|before|] == before;
    if ev.TradeEvent? {
      assert TradesLogged(before + [ev]) == TradesLogged(before) + [ev.trade];
      IntakeAppend(TradesLogged(before), ev.trade);
    } else {
      assert TradesLogged(before + [ev]) == TradesLogged(before);
      OthersTakeNothing(r, ev);
    }
  }

  /** Same book, same synchronizer with all its counters (up to the reprint of buffered numbers), the same
      accepted trades in the same order, none skipped, and the same totals. */
  ghost predicate Reproduces(inputs: seq<Input>, events: seq<ReplayEvent>) {
    var live, replay := LiveRun(inputs), ReplayAll(ReplayStart, events);
    && replay.Some?
    && replay.value.feed.book == live.feed.book
    && replay.value.feed.sync == ReprintedSync(live.feed.sync)
    && replay.value.intake == Intaken(TradesLogged(events), DUPLICATE_WINDOW).0
    && AcceptedOf(TradesLogged(events)) == AcceptedOf(TradesIn(inputs))
    && replay.value.counters.tradesSkipped == 0
    && replay.value.intake.lastId == live.intake.lastId
    && replay.value.intake.recentIds == live.intake.recentIds
    && replay.value.intake.processed == live.intake.processed
    && replay.value.totals == live.totals
  }

  /** Replay simulates live: recording a run, loading the tables and replaying them ends where the live run
      ended. */
  lemma ReplayReproducesLive(inputs: seq<Input>)
    requires AllGridded(inputs) && AllLeaveTrace(inputs)
    ensures var live := LiveRun(inputs); Reproduces(inputs, Session(live.snapshotRows, live.levelRows, live.tradeRows))
  {
    hide AllGridded, AllLeaveTrace, Session, LiveRun, Log, ReplayAll;
    LoadingRestoresLog(inputs);
    LogFollowed(inputs);
    LogHoldsAccepted(inputs);
    ReplayTakesIn(Log(inputs));
    var trades := TradesIn(inputs);
    IntakeInvariant(trades, DUPLICATE_WINDOW);
    AcceptedAreAcceptedAgain(AcceptedOf(trades), DUPLICATE_WINDOW);
  }

  /** How many depth messages came, and how many were logged. */
  function DepthsIn(inputs: seq<Input>): nat {
    if inputs == [] then 0 else DepthsIn(inputs[..|inputs| - 1]) + if inputs[|inputs| - 1].DepthIn? then 1 else 0
  }

  function Traces(inputs: seq<Input>): nat {
    if inputs == [] then 0
    else
      Traces(inputs[..|inputs| - 1])
      + if inputs[|inputs| - 1].DepthIn? && LeavesTrace(inputs[|inputs| - 1]) then 1 else 0
  }

  lemma {:induction false} TracesCount(inputs: seq<Input>)
    ensures Traces(inputs) <= DepthsIn(inputs)
    ensures Traces(inputs) == DepthsIn(inputs) <==> AllLeaveTrace(inputs)
  {
    hide LeavesRows;
    if inputs != [] {
      var before := inputs[..|inputs| - 1];
      TracesCount(before);
      assert AllLeaveTrace(inputs) <==> AllLeaveTrace(before) && LeavesTrace(inputs[|inputs| - 1]);
    }
  }

  /** A feed that has heard `n` depth events: nothing else counts as received. */
  ghost predicate Heard(f: Feed, n: nat) {
    && GridFeed(f)
    && f.sync.received == n
    && (f.sync.phase == Buffering || (f.sync.phase == Ready && f.book.initialized))
  }

  lemma DepthHeard(f: Feed, n: nat, e: DepthUpdate)
    requires Heard(f, n) && GridEvent(e)
    ensures Heard(DepthStep(f, e).0, n + 1) && DepthStep(f, e).2
  {
    hide UpdateApplied, GridEvent;
    GridAccepted(f.book, e);
  }

  lemma SnapshotHeard(f: Feed, n: nat, bids: seq<Quote>, asks: seq<Quote>, id: nat)
    requires Heard(f, n) && OnGrid(bids) && OnGrid(asks)
    ensures Heard(SnapshotStep(f, bids, asks, id).0, n) && SnapshotStep(f, bids, asks, id).1
  {
    SnapshotStepReprints(f, bids, asks, id);
    hide GridFeed, SnapshotApplied, EventsApplied, OnGrid, StaleCount, BridgeIndex, Run;
  }

  lemma {:induction false} LiveHears(inputs: seq<Input>)
    requires AllGridded(inputs)
    ensures Heard(LiveRun(inputs).feed, DepthsIn(inputs))
  {
    hide Heard, DepthStep, SnapshotStep, Taken, GridEvent, OnGrid, SnapshotApplied;
    if inputs == [] {
      StartHeard();
    } else {
      var before, input := inputs[..|inputs| - 1], inputs[|inputs| - 1];
      LiveHears(before);
      var s := LiveRun(before);
      assert Gridded(input);
      match input {
        case DepthIn(e) => DepthHeard(s.feed, DepthsIn(before), e);
        case SnapshotIn(id, bids, asks) => SnapshotHeard(s.feed, DepthsIn(before), bids, asks, id);
        case TradeIn(t) =>
        case RejectedIn(_) =>
      }
    }
  }

  lemma StartHeard()
    ensures Heard(LiveStart.feed, 0) && Heard(ReplayStart.feed, 0)
  {
  }

  /** The reprinted messages of a log are on the grid as well. */
  lemma ReprintedGrid(e: DepthUpdate)
    requires GridEvent(e)
    ensures GridEvent(Reprinted(e))
  {
    ReprintedOnGrid(e.bids);
    ReprintedOnGrid(e.asks);
  }

  lemma ReprintedOnGrid(quotes: seq<Quote>)
    requires OnGrid(quotes)
    ensures OnGrid(Decoded(Encoded(quotes)))
  {
    hide Encoded;
    ReprintKeepsLevels(quotes);
    var again := Decoded(Encoded(quotes));
    forall i | 0 <= i < |again|
      ensures WellFormedQuote(again[i]) && LevelOf(again[i]) == LevelOf(quotes[i])
    {
      assert LevelsOf(again)[i] == LevelsOf(quotes)[i];
    }
  }

  /** The log of a run on the grid always replays to its end, and hears as many events as it logged. */
  lemma {:induction false} ReplayHears(inputs: seq<Input>)
    requires AllGridded(inputs)
    ensures ReplayAll(ReplayStart, Log(inputs)).Some?
    ensures Heard(ReplayAll(ReplayStart, Log(inputs)).value.feed, Traces(inputs))
  {
    hide Heard, LogOf, Gridded, ReplayNext;
    if inputs == [] {
      StartHeard();
    } else {
      var before, input := inputs[..|inputs| - 1], inputs[|inputs| - 1];
      assert Gridded(input);
      ReplayHears(before);
      var r := ReplayAll(ReplayStart, Log(before)).value;
      InputHeard(r, Traces(before), LiveRun(before), input);
      ReplayConcat(ReplayStart, Log(before), LogOf(LiveRun(before), input));
    }
  }

  lemma InputHeard(r: ReplayState, n: nat, live: LiveState, input: Input)
    requires Heard(r.feed, n) && Gridded(input)
    ensures ReplayAll(r, LogOf(live, input)).Some?
    ensures Heard(ReplayAll(r, LogOf(live, input)).value.feed,
                  if input.DepthIn? && LeavesTrace(input) then n + 1 else n)
  {
    hide Heard, DepthStep, SnapshotStep, Taken, GridEvent, OnGrid, SnapshotApplied, LeavesRows, Reprinted, Encoded;
    hide Seeded, LenientLevels;
    if LogOf(live, input) != [] { OneReplayed(r, LogOf(live, input)[0]); }
    match input {
      case DepthIn(e) =>
        ReprintedGrid(e);
        DepthHeard(r.feed, n, Reprinted(e));
      case SnapshotIn(id, bids, asks) =>
        ReprintedOnGrid(bids);
        ReprintedOnGrid(asks);
        SnapshotHeard(r.feed, n, Decoded(Encoded(bids)), Decoded(Encoded(asks)), id);
      case TradeIn(t) =>
      case RejectedIn(_) =>
    }
  }

  /** On the grid the replay ends where the live run ended if and only if every depth event left a row: an
      event without levels is heard live and never again. */
  lemma ReplayReproducesExactly(inputs: seq<Input>)
    requires AllGridded(inputs)
    ensures var live := LiveRun(inputs);
      Reproduces(inputs, Session(live.snapshotRows, live.levelRows, live.tradeRows)) <==> AllLeaveTrace(inputs)
  {
    hide AllGridded, AllLeaveTrace, Session, LiveRun, Log, ReplayAll, GridFeed;
    if AllLeaveTrace(inputs) {
      ReplayReproducesLive(inputs);
    } else {
      LoadingRestoresLog(inputs);
      LiveHears(inputs);
      ReplayHears(inputs);
      TracesCount(inputs);
    }
  }

  /** Any run of one depth event without levels: it waits in the live buffer, nothing is stored of it, and the
      replay has heard nothing. */
  lemma EmptyEventIsForgotten(e: DepthUpdate)
    requires e.bids == [] && e.asks == []
    ensures var inputs, live := [DepthIn(e)], LiveRun([DepthIn(e)]);
      var events := Session(live.snapshotRows, live.levelRows, live.tradeRows);
      && AllGridded(inputs) && !AllLeaveTrace(inputs)
      && live.feed.sync.buffer == [e] && live.feed.sync.received == 1
      && events == [] && ReplayAll(ReplayStart, events).value.feed.sync.received == 0
      && !Reproduces(inputs, events)
  {
    hide Session, Reproduces, AllGridded, AllLeaveTrace;
    var inputs := [DepthIn(e)];
    EmptyLeavesNothing(e);
    assert AllGridded(inputs) && !AllLeaveTrace(inputs) by { OneInput(DepthIn(e)); }
    LoadingRestoresLog(inputs);
    OneLogged(DepthIn(e));
    ReplayReproducesExactly(inputs);
    assert [] + [e] == [e];
  }

  lemma EmptyLeavesNothing(e: DepthUpdate)
    requires e.bids == [] && e.asks == []
    ensures !LeavesRows(e) && RowsOf(1, e) == [] && GridEvent(e)
  {
  }

  lemma OneInput(input: Input)
    ensures AllGridded([input]) <==> Gridded(input)
    ensures AllLeaveTrace([input]) <==> LeavesTrace(input)
  {
    hide Gridded, LeavesTrace;
    assert [input][0] == input;
  }

  lemma OneLogged(input: Input)
    ensures LiveRun([input]) == LiveNext(LiveStart, input) && Log([input]) == LogOf(LiveStart, input)
  {
    hide LiveNext, LogOf;
    assert [input][..0] == [];
  }
}
