/** The step logic that feeds one book from the depth stream and from REST snapshots
    (src/main.rs, the event loop of `cmd_record`; src/replay/engine.rs). */
module DepthFeed {
  import opened Levels
  import opened Options
  import opened OrderBooks
  import opened Synchronization
  import opened Wire

  datatype Feed = Feed(sync: Sync, book: Book)

  /** A depth event: buffered, applied, dropped, or the start of a resynchronization. The second
      result says what a ready synchronizer decided, the third whether the book accepted it. */
  function DepthStep(f: Feed, e: DepthUpdate): (Feed, LiveResult, bool) {
    match f.sync.phase
    case Buffering => (f.(sync := EventBuffered(f.sync, e)), Buffered, true)
    case Reconnecting => (f.(sync := EventBuffered(f.sync, e)), Buffered, true)
    case SnapshotLoading => (f.(sync := EventBuffered(f.sync, e)), Buffered, true)
    case Synchronizing => (f.(sync := EventBuffered(f.sync, e)), Buffered, true)
    case Ready =>
      var (sync, r) := LiveProcessed(f.sync, e);
      if r == Apply then
        var (book, ok) := UpdateApplied(f.book, e.bids, e.asks, e.finalId);
        (Feed(sync, book), r, ok)
      else if r == PuMismatch then (f.(sync := ResyncTriggered(sync)), r, true)
      else (f.(sync := sync), r, true)
    case _ => (f, Ignored, true)
  }

  /** The events applied in order, up to the first one the book refuses. */
  function EventsApplied(b: Book, events: seq<DepthUpdate>): (Book, bool)
    decreases |events|
  {
    if events == [] then (b, true)
    else
      var (next, ok) := UpdateApplied(b, events[0].bids, events[0].asks, events[0].finalId);
      if ok then EventsApplied(next, events[1..]) else (next, false)
  }

  /** Reconciliation and what the driver does with its outcome: apply the events, or resynchronize. */
  function ReconcileStep(f: Feed, id: nat): (Feed, bool) {
    var (sync, events) := Reconciled(f.sync, id);
    if events.None? then (f.(sync := ResyncTriggered(sync)), true)
    else
      var (book, ok) := EventsApplied(f.book, events.value);
      (Feed(sync, book), ok)
  }

  /** A resynchronization goes on after an event that the book refuses. */
  function EventsTried(b: Book, events: seq<DepthUpdate>): Book
    decreases |events|
  {
    if events == [] then b
    else EventsTried(UpdateApplied(b, events[0].bids, events[0].asks, events[0].finalId).0, events[1..])
  }

  function ReconcileTrying(f: Feed, id: nat): Feed {
    var (sync, events) := Reconciled(f.sync, id);
    if events.None? then f.(sync := ResyncTriggered(sync)) else Feed(sync, EventsTried(f.book, events.value))
  }

  predicate Parses(e: DepthUpdate) {
    WellFormed(e.bids) && WellFormed(e.asks)
  }

  lemma {:induction false} QuotesParse(m: Ladder, quotes: seq<Quote>)
    ensures ApplyQuotes(m, quotes).1 <==> WellFormed(quotes)
    decreases |quotes|
  {
    if quotes != [] && WellFormedQuote(quotes[0]) {
      var level := LevelOf(quotes[0]);
      QuotesParse(SetLevel(m, level.price, level.quantity), quotes[1..]);
      assert quotes == [quotes[0]] + quotes[1..];
    }
  }

  /** An initialized book accepts exactly the events that parse. */
  lemma UpdateAccepted(b: Book, e: DepthUpdate)
    ensures var (after, ok) := UpdateApplied(b, e.bids, e.asks, e.finalId);
      && ok == (b.initialized && Parses(e)) && after.initialized == b.initialized
      && after.lastUpdateId == (if ok then e.finalId else b.lastUpdateId)
      && (!b.initialized ==> after == b)
  {
    hide ApplyQuotes;
    QuotesParse(b.bids, e.bids);
    QuotesParse(b.asks, e.asks);
  }

  /** If no event but the last is refused, going on and stopping lead to the same book. */
  lemma {:induction false} TryingIsApplying(b: Book, events: seq<DepthUpdate>)
    requires b.initialized ==> forall i | 0 <= i < |events| - 1 :: Parses(events[i])
    ensures EventsTried(b, events) == EventsApplied(b, events).0
    ensures !b.initialized ==> EventsTried(b, events) == b
    decreases |events|
  {
    hide UpdateApplied, Parses;
    if events != [] {
      var next := UpdateApplied(b, events[0].bids, events[0].asks, events[0].finalId).0;
      UpdateAccepted(b, events[0]);
      if |events| == 1 {
        assert EventsTried(next, events[1..]) == next && EventsApplied(next, events[1..]) == (next, true);
      } else {
        TryingIsApplying(next, events[1..]);
      }
    }
  }

  ghost predicate IdsAscend(events: seq<DepthUpdate>) {
    forall i, j | 0 <= i < j < |events| :: events[i].finalId < events[j].finalId
  }

  /** Going on ends at a later id than the book was at if and only if some event parses. */
  lemma {:induction false} TriedId(b: Book, events: seq<DepthUpdate>)
    requires b.initialized && forall i | 0 <= i < |events| :: events[i].finalId > b.lastUpdateId
    requires IdsAscend(events)
    ensures EventsTried(b, events).lastUpdateId >= b.lastUpdateId
    ensures EventsTried(b, events).lastUpdateId == b.lastUpdateId
       <==> forall i | 0 <= i < |events| :: !Parses(events[i])
    decreases |events|
  {
    hide UpdateApplied, Parses;
    if events != [] {
      UpdateAccepted(b, events[0]);
      TriedId(UpdateApplied(b, events[0].bids, events[0].asks, events[0].finalId).0, events[1..]);
      assert events == [events[0]] + events[1..];
    }
  }

  /** No event that parses comes after one that does not. */
  ghost predicate NoneAfterRefused(events: seq<DepthUpdate>) {
    forall i, j | 0 <= i < j < |events| && Parses(events[j]) :: Parses(events[i])
  }

  /** In a list whose ids ascend from the book, going on and stopping end at the same id if and only if no
      event that parses comes after one that is refused. */
  lemma {:induction false} SameIdExactly(b: Book, events: seq<DepthUpdate>)
    requires b.initialized && IdsAscend(events) && (events != [] ==> b.lastUpdateId <= events[0].finalId)
    ensures EventsTried(b, events).lastUpdateId == EventsApplied(b, events).0.lastUpdateId
       <==> NoneAfterRefused(events)
    decreases |events|
  {
    hide UpdateApplied, Parses;
    if events != [] {
      var e, rest := events[0], events[1..];
      assert events == [e] + rest;
      UpdateAccepted(b, e);
      var next := UpdateApplied(b, e.bids, e.asks, e.finalId).0;
      if Parses(e) {
        SameIdExactly(next, rest);
        FirstParses(events);
      } else {
        TriedId(next, rest);
        FirstRefused(events);
      }
    }
  }

  lemma FirstParses(events: seq<DepthUpdate>)
    requires events != [] && Parses(events[0])
    ensures NoneAfterRefused(events) <==> NoneAfterRefused(events[1..])
  {
    hide Parses;
    var rest := events[1..];
    if NoneAfterRefused(rest) {
      forall i, j | 0 <= i < j < |events| && Parses(events[j]) ensures Parses(events[i]) {
        if i > 0 { assert rest[i - 1] == events[i] && rest[j - 1] == events[j]; }
      }
    }
  }

  lemma FirstRefused(events: seq<DepthUpdate>)
    requires events != [] && !Parses(events[0])
    ensures NoneAfterRefused(events) <==> forall i | 0 <= i < |events[1..]| :: !Parses(events[1..][i])
  {
    hide Parses;
    var rest := events[1..];
    if NoneAfterRefused(events) {
      forall i | 0 <= i < |rest| ensures !Parses(rest[i]) {
        assert rest[i] == events[i + 1];
      }
    } else {
      var i, j :| 0 <= i < j < |events| && Parses(events[j]) && !Parses(events[i]);
      assert rest[j - 1] == events[j];
    }
  }

  const Garbled := DepthUpdate(0, 0, 1, 2, 0, [Quote(Malformed, Malformed)], [])
  const Following := DepthUpdate(0, 0, 3, 3, 2, [], [])

  /** A refused event between the snapshot and the next event: the first fetch leaves the book at the
      snapshot, a resynchronization takes it past the event whose levels it never saw. Both report the id of
      the last event. */
  lemma PathsMayDiffer(bids: Ladder, asks: Ladder)
    ensures var f := Feed(FreshSync.(phase := SnapshotLoading, buffer := [Garbled, Following]),
                          Book(bids, asks, 1, true));
      var first, again := ReconcileStep(f, 1).0, ReconcileTrying(f, 1);
      && first.sync == again.sync && again.sync.phase == Ready && again.sync.lastAppliedU == Some(3)
      && first.book == Book(bids, asks, 1, true) && again.book == Book(bids, asks, 3, true)
  {
    hide Reconciled, EventsApplied, EventsTried;
    GarbledRun();
    GarbledBooks(Book(bids, asks, 1, true));
  }

  lemma GarbledRun()
    ensures var (sync, events) := Reconciled(FreshSync.(phase := SnapshotLoading, buffer := [Garbled, Following]), 1);
      && events == Some([Garbled, Following]) && sync.phase == Ready && sync.lastAppliedU == Some(3)
  {
    var events := [Garbled, Following];
    assert StaleCount(events, 1) == 0 && events[0..] == events;
    assert BridgeIndex(events, 1) == Some(0);
    assert events[1..] == [Following] && events[..2] == events;
    assert Run(events) == events;
  }

  lemma GarbledBooks(b: Book)
    requires b.initialized
    ensures EventsApplied(b, [Garbled, Following]).0 == b
    ensures EventsTried(b, [Garbled, Following]) == b.(lastUpdateId := 3)
  {
    var events := [Garbled, Following];
    assert events[1..] == [Following] && [Following][1..] == [];
    assert UpdateApplied(b, Garbled.bids, Garbled.asks, 2) == (b, false);
    assert UpdateApplied(b, Following.bids, Following.asks, 3) == (b.(lastUpdateId := 3), true);
    assert EventsTried(b, events) == EventsTried(b, [Following]) == EventsTried(b.(lastUpdateId := 3), []);
  }

  /** The three actions on a snapshot with nothing in between. */
  function SnapshotStep(f: Feed, bids: seq<Quote>, asks: seq<Quote>, id: nat): (Feed, bool) {
    var loading := f.sync.(phase := SnapshotLoading);
    var (book, ok) := SnapshotApplied(f.book, bids, asks, id);
    if !ok then (Feed(loading, book), false) else ReconcileStep(Feed(loading, book), id)
  }

  /** Apply the events of a reconciliation to the book. */
  method ApplyEvents(book: OrderBook, events: seq<DepthUpdate>) returns (ok: bool)
    modifies book
    ensures (book.View(), ok) == EventsApplied(old(book.View()), events)
  {
    for i := 0 to |events|
      invariant EventsApplied(book.View(), events[i..]) == EventsApplied(old(book.View()), events)
    {
      assert events[i..][1..] == events[i + 1..];
      var e := events[i];
      ok := book.ApplyDepthUpdate(e.bids, e.asks, e.finalId);
      if !ok { return; }
    }
    ok := true;
  }

  /** Reconcile, then apply or resynchronize. Returns how many events were handed to the book. */
  method ReconcileInto(sync: Synchronizer, book: OrderBook, id: nat) returns (applied: Option<nat>, ok: bool)
    modifies sync, book
    ensures (Feed(sync.View(), book.View()), ok) == ReconcileStep(old(Feed(sync.View(), book.View())), id)
    ensures applied == RunLength(old(sync.View()), id)
  {
    var events := sync.Reconcile(id);
    if events.Some? {
      ok := ApplyEvents(book, events.value);
      applied := Some(|events.value|);
    } else {
      sync.TriggerResync();
      ok := true;
      applied := None;
    }
  }

  /** The same in a resynchronization. */
  method ReconcileTryingInto(sync: Synchronizer, book: OrderBook, id: nat)
    modifies sync, book
    ensures Feed(sync.View(), book.View()) == ReconcileTrying(old(Feed(sync.View(), book.View())), id)
  {
    hide UpdateApplied;
    var events := sync.Reconcile(id);
    if events.None? {
      sync.TriggerResync();
      return;
    }
    for i := 0 to |events.value|
      invariant sync.View() == Reconciled(old(sync.View()), id).0
      invariant EventsTried(book.View(), events.value[i..]) == EventsTried(old(book.View()), events.value)
    {
      assert events.value[i..][1..] == events.value[i + 1..];
      var e := events.value[i];
      var _ := book.ApplyDepthUpdate(e.bids, e.asks, e.finalId);
    }
  }

  function RunLength(s: Sync, id: nat): Option<nat> {
    var events := Reconciled(s, id).1;
    if events.Some? then Some(|events.value|) else None
  }

  /** A depth event, by the phase of the synchronizer. */
  method FeedDepth(sync: Synchronizer, book: OrderBook, e: DepthUpdate) returns (r: LiveResult, ok: bool)
    modifies sync, book
    ensures Feed(sync.View(), book.View()) == DepthStep(old(Feed(sync.View(), book.View())), e).0
    ensures r == DepthStep(old(Feed(sync.View(), book.View())), e).1
    ensures ok == DepthStep(old(Feed(sync.View(), book.View())), e).2
  {
    r, ok := Buffered, true;
    match sync.phase {
      case Buffering => sync.BufferEvent(e);
      case Reconnecting => sync.BufferEvent(e);
      case SnapshotLoading => sync.BufferEvent(e);
      case Synchronizing => sync.BufferEvent(e);
      case Ready =>
        r := sync.ProcessLiveEvent(e);
        if r == Apply {
          ok := book.ApplyDepthUpdate(e.bids, e.asks, e.finalId);
        } else if r == PuMismatch {
          sync.TriggerResync();
        }
      case _ => r := Ignored;
    }
  }
}
