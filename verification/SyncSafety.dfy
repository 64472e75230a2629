/** What the depth feed guarantees over whole runs against one exchange history. */
module SyncSafety {
  import opened DepthFeed
  import opened Exchange
  import opened Options
  import opened OrderBooks
  import opened Synchronization
  import opened Wire

  /** The atomic actions of the live program. Any fetch may perform any of its actions at any time; one
      that resynchronizes goes on after an event that the book refuses. */
  datatype Step =
    | Connect
    | Disconnect
    | Depth(event: DepthUpdate)
    | SnapshotRequested
    | SnapshotReceived(bids: seq<Quote>, asks: seq<Quote>, id: nat)
    | Reconcile(snapshotId: nat)
    | ReconcileAgain(snapshotId: nat)
    | FetchFailed

  function Next(f: Feed, step: Step): Feed {
    match step
    case Connect => f.(sync := Connected(f.sync))
    case Disconnect => Feed(ReconnectStarted(f.sync), f.book.(initialized := false))
    case Depth(e) => DepthStep(f, e).0
    case SnapshotRequested => f.(sync := f.sync.(phase := SnapshotLoading))
    case SnapshotReceived(bids, asks, id) => f.(book := SnapshotApplied(f.book, bids, asks, id).0)
    case Reconcile(id) => ReconcileStep(f, id).0
    case ReconcileAgain(id) => ReconcileTrying(f, id)
    case FetchFailed => f.(sync := ResyncTriggered(f.sync))
  }

  const Start := Feed(FreshSync, EmptyBook)

  function RunOf(steps: seq<Step>): Feed {
    if steps == [] then Start else Next(RunOf(steps[..|steps| - 1]), steps[|steps| - 1])
  }

  /** What the network delivers is faithful; what it loses, repeats or reorders is open. */
  ghost predicate Delivered(h: History, step: Step) {
    match step
    case Depth(e) => Faithful(h, e)
    case SnapshotReceived(bids, asks, id) => FaithfulSnapshot(h, bids, asks, id)
    case _ => true
  }

  predicate HasBridge(buffer: seq<DepthUpdate>, id: nat) {
    BridgeIndex(buffer[StaleCount(buffer, id)..], id).Some?
  }

  /** The events that reconciling with snapshot `id` hands to the book. */
  function RunIn(buffer: seq<DepthUpdate>, id: nat): (r: seq<DepthUpdate>)
    requires HasBridge(buffer, id)
    ensures r != []
  {
    var rest := buffer[StaleCount(buffer, id)..];
    Run(rest[BridgeIndex(rest, id).value..])
  }

  /** The run takes a book at `n` to the end of the run: it leaves no gap behind the book, the unchecked
      second event leaves none behind the first, and neither the book nor the first event is newer than
      the last event. */
  predicate RunFits(run: seq<DepthUpdate>, n: nat)
    requires run != []
  {
    var first, last := run[0], run[|run| - 1].finalId;
    if |run| == 1 then first.previousFinalId <= n <= last
    else
      && run[1].previousFinalId <= first.finalId <= last
      && n <= last
      && (first.previousFinalId <= n || run[1].previousFinalId <= n)
  }

  /** For the book of the snapshot itself only the unchecked pair matters. */
  predicate RunOverlaps(run: seq<DepthUpdate>)
    requires run != []
  {
    |run| >= 2 ==> run[1].previousFinalId <= run[0].finalId <= run[|run| - 1].finalId
  }

  predicate PairOverlaps(buffer: seq<DepthUpdate>, id: nat) {
    HasBridge(buffer, id) ==> RunOverlaps(RunIn(buffer, id))
  }

  /** What the driver can inspect before a step: a snapshot loaded under a ready synchronizer is the
      book that it has already, and the events of a reconciliation fit the book that they are applied to,
      whichever snapshot that came from. */
  predicate Guard(f: Feed, step: Step) {
    match step
    case SnapshotReceived(_, _, id) => f.sync.phase == Ready ==> f.sync.lastAppliedU == Some(id)
    case Reconcile(id) => ReconcileGuard(f, id)
    case ReconcileAgain(id) => ReconcileGuard(f, id)
    case _ => true
  }

  predicate ReconcileGuard(f: Feed, id: nat) {
    HasBridge(f.sync.buffer, id) ==> f.book.initialized && RunFits(RunIn(f.sync.buffer, id), f.book.lastUpdateId)
  }

  /** Every step of the run was delivered faithfully and met its guard when it was taken. */
  ghost predicate GoodRun(h: History, steps: seq<Step>) {
    steps == []
    || (GoodRun(h, steps[..|steps| - 1])
        && Delivered(h, steps[|steps| - 1]) && Guard(RunOf(steps[..|steps| - 1]), steps[|steps| - 1]))
  }

  ghost predicate FaithfulAll(h: History, events: seq<DepthUpdate>) {
    forall i | 0 <= i < |events| :: Faithful(h, events[i])
  }

  /** An initialized book is the exchange's book at its own id, and a ready synchronizer's last
      applied id is that id. */
  ghost predicate InStep(h: History, f: Feed) {
    && FaithfulAll(h, f.sync.buffer)
    && (f.book.initialized ==> BookIs(h, f.book, f.book.lastUpdateId))
    && (f.sync.phase == Ready ==> f.book.initialized && f.sync.lastAppliedU == Some(f.book.lastUpdateId))
  }

  function LadderOf(b: Book, side: BookSide): Ladder {
    if side == Bid then b.bids else b.asks
  }

  function After(b: Book, e: DepthUpdate): Book {
    UpdateApplied(b, e.bids, e.asks, e.finalId).0
  }

  /** After events for the ids `(from, to]` a level shows the exchange's quantity at `to`, or it shows what
      it showed before and none of these ids set it. */
  ghost predicate Shows(h: History, after: Book, before: Book, from: nat, to: nat, side: BookSide, p: nat)
    requires to <= |h|
  {
    var shown := Quantity(LadderOf(after, side), p);
    || shown == Quantity(LadderAt(h, to, side), p)
    || (shown == Quantity(LadderOf(before, side), p) && !Touched(h, from, to, side, p))
  }

  ghost predicate ShowsAll(h: History, after: Book, before: Book, from: nat, to: nat)
    requires to <= |h|
  {
    forall side, p :: Shows(h, after, before, from, to, side, p)
  }

  ghost predicate Sound(b: Book) {
    b.initialized && NoZeros(b.bids) && NoZeros(b.asks)
  }

  lemma SideShows(h: History, m: Ladder, quotes: seq<Quote>, from: nat, to: nat, side: BookSide, p: nat)
    requires to <= |h| && StatesLadder(h, quotes, from, to, side)
    ensures var shown := Quantity(Overlay(m, LevelsOf(quotes)), p);
      || shown == Quantity(LadderAt(h, to, side), p)
      || (shown == Quantity(m, p) && !Touched(h, from, to, side, p))
  {
    var levels := LevelsOf(quotes);
    OverlayQuantity(m, levels, p);
    LastMentionIsMention(levels, p);
    if LastMention(levels, p).None? {
      assert forall i | 0 <= i < |quotes| :: levels[i].price != p;
    } else {
      var i :| 0 <= i < |levels| && levels[i] == Level(p, LastMention(levels, p).value);
      assert LevelOf(quotes[i]) == levels[i];
    }
  }

  /** What one faithful event does to any book, whatever that book has seen. */
  lemma EventShows(h: History, b: Book, e: DepthUpdate)
    requires Sound(b) && Faithful(h, e)
    ensures UpdateApplied(b, e.bids, e.asks, e.finalId).1
    ensures Sound(After(b, e)) && After(b, e).lastUpdateId == e.finalId
    ensures ShowsAll(h, After(b, e), b, e.previousFinalId, e.finalId)
  {
    ApplyQuotesIsOverlay(b.bids, e.bids);
    ApplyQuotesIsOverlay(b.asks, e.asks);
    OverlayKeepsNoZeros(b.bids, LevelsOf(e.bids));
    OverlayKeepsNoZeros(b.asks, LevelsOf(e.asks));
    forall side, p ensures Shows(h, After(b, e), b, e.previousFinalId, e.finalId, side, p) {
      SideShows(h, b.bids, e.bids, e.previousFinalId, e.finalId, Bid, p);
      SideShows(h, b.asks, e.asks, e.previousFinalId, e.finalId, Ask, p);
    }
  }

  lemma ShowsChained(h: History, a: Book, b: Book, c: Book, from: nat, mid: nat, to: nat)
    requires from <= mid <= to <= |h| && ShowsAll(h, b, a, from, mid) && ShowsAll(h, c, b, mid, to)
    ensures ShowsAll(h, c, a, from, to)
  {
    forall side, p ensures Shows(h, c, a, from, to, side, p) {
      assert Shows(h, b, a, from, mid, side, p) && Shows(h, c, b, mid, to, side, p);
      if !Touched(h, mid, to, side, p) { UntouchedStays(h, mid, to, side, p); }
    }
  }

  /** A chain does what one event for all its ids would do. */
  lemma {:induction false} ChainShows(h: History, b: Book, events: seq<DepthUpdate>)
    requires Sound(b) && FaithfulAll(h, events) && events != [] && ChainedTo(events, |events|)
    ensures EventsApplied(b, events).1 && Sound(EventsApplied(b, events).0)
    ensures events[0].previousFinalId < events[|events| - 1].finalId <= |h|
    ensures EventsApplied(b, events).0.lastUpdateId == events[|events| - 1].finalId
    ensures ShowsAll(h, EventsApplied(b, events).0, b, events[0].previousFinalId, events[|events| - 1].finalId)
    decreases |events|
  {
    hide Sound, ShowsAll, UpdateApplied, StatesLadder;
    var e, next, rest := events[0], After(b, events[0]), events[1..];
    EventShows(h, b, e);
    if rest == [] {
      assert EventsApplied(next, rest) == (next, true);
    } else {
      assert rest[0].previousFinalId == e.finalId;
      assert rest[|rest| - 1] == events[|events| - 1];
      ChainShows(h, next, rest);
      ShowsChained(h, b, next, EventsApplied(next, rest).0, e.previousFinalId, e.finalId, rest[|rest| - 1].finalId);
    }
  }

  lemma BookIsSound(h: History, b: Book, n: nat)
    requires BookIs(h, b, n)
    ensures Sound(b)
  {
  }

  lemma ShownIsBook(h: History, b: Book, n: nat)
    requires n <= |h| && Sound(b) && b.lastUpdateId == n
    requires forall side, p :: Quantity(LadderOf(b, side), p) == Quantity(LadderAt(h, n, side), p)
    ensures BookIs(h, b, n)
  {
    assert LadderOf(b, Bid) == b.bids && LadderOf(b, Ask) == b.asks;
    LaddersEqual(b.bids, LadderAt(h, n, Bid));
    LaddersEqual(b.asks, LadderAt(h, n, Ask));
  }

  /** A book at `n` and one event that fits it. */
  lemma SingleSound(h: History, b: Book, n: nat, after: Book, from: nat, to: nat)
    requires BookIs(h, b, n) && from <= n <= to <= |h|
    requires Sound(after) && after.lastUpdateId == to && ShowsAll(h, after, b, from, to)
    ensures BookIs(h, after, to)
  {
    forall side, p ensures Quantity(LadderOf(after, side), p) == Quantity(LadderAt(h, to, side), p) {
      assert Shows(h, after, b, from, to, side, p);
      if !Touched(h, from, to, side, p) { UntouchedStays(h, n, to, side, p); }
    }
    ShownIsBook(h, after, to);
  }

  /** A book at `n`, the bridging event and a chain behind it that fits both. */
  lemma PairSound(h: History, b: Book, n: nat, first: DepthUpdate, mid: Book, after: Book, from: nat, to: nat)
    requires BookIs(h, b, n) && first.finalId <= |h| && to <= |h|
    requires from <= first.finalId <= to && n <= to && (first.previousFinalId <= n || from <= n)
    requires ShowsAll(h, mid, b, first.previousFinalId, first.finalId)
    requires Sound(after) && after.lastUpdateId == to && ShowsAll(h, after, mid, from, to)
    ensures BookIs(h, after, to)
  {
    forall side, p ensures Quantity(LadderOf(after, side), p) == Quantity(LadderAt(h, to, side), p) {
      assert Shows(h, mid, b, first.previousFinalId, first.finalId, side, p) && Shows(h, after, mid, from, to, side, p);
      if !Touched(h, from, to, side, p) {
        UntouchedStays(h, first.finalId, to, side, p);
        if from <= n {
          UntouchedStays(h, n, to, side, p);
        } else if !Touched(h, first.previousFinalId, first.finalId, side, p) {
          UntouchedStays(h, n, to, side, p);
        }
      }
    }
    ShownIsBook(h, after, to);
  }

  /** A run that fits takes the exchange's book at `n` to the exchange's book at the end of the run. */
  lemma RunSound(h: History, b: Book, n: nat, run: seq<DepthUpdate>)
    requires BookIs(h, b, n) && run != [] && FaithfulAll(h, run) && ChainedTo(run[1..], |run| - 1)
    requires RunFits(run, n)
    ensures EventsApplied(b, run).1 && BookIs(h, EventsApplied(b, run).0, run[|run| - 1].finalId)
  {
    hide Sound, ShowsAll, UpdateApplied, StatesLadder, BookIs;
    var e, mid, rest := run[0], After(b, run[0]), run[1..];
    BookIsSound(h, b, n);
    EventShows(h, b, e);
    if rest == [] {
      assert EventsApplied(mid, rest) == (mid, true);
      SingleSound(h, b, n, mid, e.previousFinalId, e.finalId);
    } else {
      assert rest[|rest| - 1] == run[|run| - 1];
      ChainShows(h, mid, rest);
      var after := EventsApplied(mid, rest).0;
      PairSound(h, b, n, e, mid, after, rest[0].previousFinalId, rest[|rest| - 1].finalId);
    }
  }

  lemma RunInShape(buffer: seq<DepthUpdate>, id: nat)
    requires HasBridge(buffer, id)
    ensures var run := RunIn(buffer, id);
      && Bridges(run[0], id)
      && ChainedTo(run[1..], |run| - 1)
      && forall e | e in run :: e in buffer
  {
    var rest := buffer[StaleCount(buffer, id)..];
    var fromBridge := rest[BridgeIndex(rest, id).value..];
    RunIsChained(fromBridge);
    assert forall e | e in fromBridge :: e in rest;
    assert forall e | e in rest :: e in buffer;
  }

  lemma RunInFaithful(h: History, buffer: seq<DepthUpdate>, id: nat)
    requires HasBridge(buffer, id) && FaithfulAll(h, buffer)
    ensures FaithfulAll(h, RunIn(buffer, id))
  {
    hide Faithful;
    RunInShape(buffer, id);
    var run := RunIn(buffer, id);
    forall i | 0 <= i < |run| ensures Faithful(h, run[i]) { assert run[i] in buffer; }
  }

  /** For the snapshot's own book the general condition comes down to the unchecked pair. */
  lemma FitsIsOverlap(h: History, buffer: seq<DepthUpdate>, id: nat)
    requires HasBridge(buffer, id) && FaithfulAll(h, buffer)
    ensures RunFits(RunIn(buffer, id), id) <==> RunOverlaps(RunIn(buffer, id))
  {
    hide StatesLadder;
    RunInShape(buffer, id);
    RunInFaithful(h, buffer, id);
  }

  lemma DepthKeepsInStep(h: History, f: Feed, e: DepthUpdate)
    requires InStep(h, f) && Faithful(h, e)
    ensures InStep(h, DepthStep(f, e).0)
  {
    if f.sync.phase == Ready && LiveProcessed(f.sync, e).1 == Apply {
      EventAdvances(h, f.book, f.book.lastUpdateId, e);
    }
  }

  lemma ReconcileKeepsInStep(h: History, f: Feed, id: nat)
    requires InStep(h, f) && ReconcileGuard(f, id)
    ensures InStep(h, ReconcileStep(f, id).0) && ReconcileTrying(f, id) == ReconcileStep(f, id).0
  {
    hide BookIs, RunFits, EventsApplied, EventsTried;
    if HasBridge(f.sync.buffer, id) {
      var run := RunIn(f.sync.buffer, id);
      RunInShape(f.sync.buffer, id);
      RunInFaithful(h, f.sync.buffer, id);
      RunSound(h, f.book, f.book.lastUpdateId, run);
      TryingIsApplying(f.book, run);
      EndsAtLast(h, f.book, f.book.lastUpdateId, run);
    }
  }

  lemma EndsAtLast(h: History, b: Book, n: nat, run: seq<DepthUpdate>)
    requires run != [] && BookIs(h, EventsApplied(b, run).0, run[|run| - 1].finalId)
    ensures EventsApplied(b, run).0.initialized && EventsApplied(b, run).0.lastUpdateId == run[|run| - 1].finalId
  {
  }

  /** Every guarded, faithfully delivered step keeps the feed in step with the exchange. */
  lemma StepKeepsInStep(h: History, f: Feed, step: Step)
    requires InStep(h, f) && Delivered(h, step) && Guard(f, step)
    ensures InStep(h, Next(f, step))
  {
    match step {
      case Depth(e) =>
        DepthKeepsInStep(h, f, e);
      case SnapshotReceived(bids, asks, id) =>
        SnapshotLoads(h, f.book, bids, asks, id);
      case Reconcile(id) =>
        ReconcileKeepsInStep(h, f, id);
      case ReconcileAgain(id) =>
        ReconcileKeepsInStep(h, f, id);
      case _ =>
    }
  }

  /** Loading a snapshot under a ready synchronizer is harmless if and only if it is the book at the last
      applied id. */
  lemma SnapshotUnderReadyExact(h: History, f: Feed, bids: seq<Quote>, asks: seq<Quote>, id: nat)
    requires InStep(h, f) && f.sync.phase == Ready && FaithfulSnapshot(h, bids, asks, id)
    ensures InStep(h, Next(f, SnapshotReceived(bids, asks, id))) <==> f.sync.lastAppliedU == Some(id)
  {
    SnapshotLoads(h, f.book, bids, asks, id);
  }

  lemma {:induction false} RunsStayInStep(h: History, steps: seq<Step>)
    requires GoodRun(h, steps)
    ensures InStep(h, RunOf(steps))
    decreases |steps|
  {
    if steps != [] {
      hide InStep, Next, Delivered, Guard;
      var before := steps[..|steps| - 1];
      RunsStayInStep(h, before);
      StepKeepsInStep(h, RunOf(before), steps[|steps| - 1]);
    }
  }

  /** Synchronization safety over every run whose steps meet their guards, whatever is lost, repeated or
      reordered and however fetches overlap: a ready synchronizer means that the local book is the
      exchange's book at the last applied update id. */
  lemma ReadyMeansSynchronized(h: History, steps: seq<Step>)
    requires GoodRun(h, steps)
    ensures var f := RunOf(steps);
      f.sync.phase == Ready ==> f.sync.lastAppliedU.Some? && BookIs(h, f.book, f.sync.lastAppliedU.value)
  {
    RunsStayInStep(h, steps);
  }

  /** The verdicts on a list of live events. */
  function Verdicts(f: Feed, events: seq<DepthUpdate>): seq<LiveResult>
    decreases |events|
  {
    if events == [] then [] else [DepthStep(f, events[0]).1] + Verdicts(Next(f, Depth(events[0])), events[1..])
  }

  /** After a good run no event of the exchange is ever dropped as stale, however many follow, out of
      order or repeated: the chain check comes first. */
  lemma {:induction false} FaithfulNeverStale(h: History, f: Feed, events: seq<DepthUpdate>)
    requires InStep(h, f) && FaithfulAll(h, events)
    ensures Stale !in Verdicts(f, events)
    decreases |events|
  {
    hide InStep, StatesLadder;
    if events != [] {
      assert DepthStep(f, events[0]).1 != Stale;
      DepthKeepsInStep(h, f, events[0]);
      FaithfulNeverStale(h, Next(f, Depth(events[0])), events[1..]);
    }
  }

  lemma RunNeverStale(h: History, steps: seq<Step>, events: seq<DepthUpdate>)
    requires GoodRun(h, steps) && FaithfulAll(h, events)
    ensures Stale !in Verdicts(RunOf(steps), events)
  {
    RunsStayInStep(h, steps);
    FaithfulNeverStale(h, RunOf(steps), events);
  }

  function DepthSteps(f: Feed, events: seq<DepthUpdate>): Feed
    decreases |events|
  {
    if events == [] then f else DepthSteps(Next(f, Depth(events[0])), events[1..])
  }

  /** Events that arrive while a snapshot is loading are lost, not buffered. */
  lemma {:induction false} LoadingIgnoresDepth(f: Feed, events: seq<DepthUpdate>)
    requires f.sync.phase == SnapshotLoading
    ensures DepthSteps(f, events) == f
    decreases |events|
  {
    if events != [] { LoadingIgnoresDepth(f, events[1..]); }
  }
}
