/** Exactly when reconciliation can be trusted. */
module SyncExactness {
  import opened DepthFeed
  import opened Exchange
  import opened Levels
  import opened Options
  import opened OrderBooks
  import opened Synchronization
  import opened SyncSafety
  import opened Wire

  /** The two buffers carry the same update ids; their levels may differ. */
  ghost predicate SameIds(a: seq<DepthUpdate>, b: seq<DepthUpdate>) {
    && |a| == |b|
    && forall i | 0 <= i < |a| ::
        && a[i].firstId == b[i].firstId
        && a[i].finalId == b[i].finalId
        && a[i].previousFinalId == b[i].previousFinalId
  }

  ghost predicate IdsWellFormed(buffer: seq<DepthUpdate>) {
    forall i | 0 <= i < |buffer| :: buffer[i].previousFinalId < buffer[i].firstId <= buffer[i].finalId
  }

  /** The feed that reconciles: only the buffer and the book matter. */
  function Buffered(buffer: seq<DepthUpdate>, b: Book): Feed {
    Feed(FreshSync.(phase := SnapshotLoading, buffer := buffer), b)
  }

  /** Reconciling ends with the exchange's book at the id that the synchronizer reports. */
  ghost predicate ReconcilesRight(h: History, buffer: seq<DepthUpdate>, b: Book, id: nat) {
    var f := ReconcileStep(Buffered(buffer, b), id).0;
    f.sync.lastAppliedU.Some? && BookIs(h, f.book, f.sync.lastAppliedU.value)
  }

  /** Reconciling a book at `n` is right for every exchange history and every faithful buffer with these
      ids. */
  ghost predicate AlwaysRight(buffer: seq<DepthUpdate>, id: nat, n: nat, initialized: bool) {
    forall h, delivered, b |
      && SameIds(delivered, buffer) && FaithfulAll(h, delivered)
      && BookIs(h, b, n) ::
      ReconcilesRight(h, delivered, b.(initialized := initialized), id)
  }

  /** The shape of a run depends on the ids alone. */
  lemma SameIdsSameRun(a: seq<DepthUpdate>, b: seq<DepthUpdate>, id: nat)
    requires SameIds(a, b)
    ensures HasBridge(a, id) <==> HasBridge(b, id)
    ensures HasBridge(a, id) ==> SameIds(RunIn(a, id), RunIn(b, id))
  {
    hide StaleCount, BridgeIndex, Run;
    SameStaleCount(a, b, id);
    var n := StaleCount(a, id);
    assert SameIds(a[n..], b[n..]);
    SameBridge(a[n..], b[n..], id);
    var bridge := BridgeIndex(a[n..], id);
    if bridge.Some? {
      assert SameIds(a[n..][bridge.value..], b[n..][bridge.value..]);
      SameRun(a[n..][bridge.value..], b[n..][bridge.value..]);
    }
  }

  lemma SameRun(a: seq<DepthUpdate>, b: seq<DepthUpdate>)
    requires SameIds(a, b) && a != []
    ensures SameIds(Run(a), Run(b))
  {
    assert SameIds(a[1..], b[1..]);
    ChainLengthUnique(a[1..], ChainLength(b[1..]));
  }

  lemma {:induction false} SameStaleCount(a: seq<DepthUpdate>, b: seq<DepthUpdate>, id: nat)
    requires SameIds(a, b)
    ensures StaleCount(a, id) == StaleCount(b, id)
  {
    if a != [] {
      assert SameIds(a[1..], b[1..]);
      SameStaleCount(a[1..], b[1..], id);
    }
  }

  lemma {:induction false} SameBridge(a: seq<DepthUpdate>, b: seq<DepthUpdate>, id: nat)
    requires SameIds(a, b)
    ensures BridgeIndex(a, id) == BridgeIndex(b, id)
  {
    if a != [] {
      assert SameIds(a[1..], b[1..]);
      SameBridge(a[1..], b[1..], id);
    }
  }

  /** Reconciliation decided exactly, for a book at any id: it is right for every exchange history if and
      only if the book is initialized and the ids of the run fit it. */
  lemma OverlapGuardExact(buffer: seq<DepthUpdate>, id: nat, n: nat, initialized: bool)
    requires IdsWellFormed(buffer) && HasBridge(buffer, id)
    ensures AlwaysRight(buffer, id, n, initialized) <==> initialized && RunFits(RunIn(buffer, id), n)
  {
    hide RunFits, RunIn, ReconcilesRight, BookIs, Faithful;
    if initialized && RunFits(RunIn(buffer, id), n) {
      forall h, delivered, b | SameIds(delivered, buffer) && FaithfulAll(h, delivered) && BookIs(h, b, n)
        ensures ReconcilesRight(h, delivered, b.(initialized := initialized), id)
      {
        FitSuffices(h, buffer, delivered, b, id, n);
        BookIsSound(h, b, n);
        assert b.(initialized := initialized) == b;
      }
    } else {
      FitNeeded(buffer, id, n, initialized);
    }
  }

  /** For the snapshot's own book that is the overlap of the unchecked pair. */
  lemma SnapshotPairExact(buffer: seq<DepthUpdate>, id: nat)
    requires IdsWellFormed(buffer) && HasBridge(buffer, id)
    ensures AlwaysRight(buffer, id, id, true) <==> PairOverlaps(buffer, id)
  {
    hide AlwaysRight;
    OverlapGuardExact(buffer, id, id, true);
    RunInShape(buffer, id);
    var run := RunIn(buffer, id);
    assert forall i | 0 <= i < |run| :: run[i] in buffer;
  }

  lemma FitNeeded(buffer: seq<DepthUpdate>, id: nat, n: nat, initialized: bool)
    requires IdsWellFormed(buffer) && HasBridge(buffer, id)
    requires initialized ==> !RunFits(RunIn(buffer, id), n)
    ensures !AlwaysRight(buffer, id, n, initialized)
  {
    hide RunFits, RunIn, ReconcilesRight, BookIs, Faithful, MarkFor, AlwaysRight;
    RunInWellFormed(buffer, id);
    var mark := MarkFor(RunIn(buffer, id), n);
    var h := MarkedHistory(Bound(buffer) + n + mark.at + 1, mark);
    var delivered := MarkedBuffer(h, buffer, mark);
    var b := Book(LadderAt(h, n, Bid), LadderAt(h, n, Ask), n, true);
    LaddersAreBook(h, b, n);
    MarkedBufferIsFaithful(h, buffer, mark);
    if initialized {
      MarkedGoesWrong(h, buffer, delivered, b, id, n, mark);
      assert b.(initialized := initialized) == b;
    } else {
      InitializedNeeded(h, buffer, delivered, b, id);
    }
    NotAlwaysRight(h, buffer, delivered, b, id, n, initialized);
  }

  lemma LaddersAreBook(h: History, b: Book, n: nat)
    requires n <= |h| && b == Book(LadderAt(h, n, Bid), LadderAt(h, n, Ask), n, true)
    ensures BookIs(h, b, n)
  {
  }

  lemma NotAlwaysRight(h: History, buffer: seq<DepthUpdate>, delivered: seq<DepthUpdate>, b: Book, id: nat, n: nat,
                       initialized: bool)
    requires SameIds(delivered, buffer) && FaithfulAll(h, delivered) && BookIs(h, b, n)
    requires !ReconcilesRight(h, delivered, b.(initialized := initialized), id)
    ensures !AlwaysRight(buffer, id, n, initialized)
  {
  }

  lemma RunInWellFormed(buffer: seq<DepthUpdate>, id: nat)
    requires IdsWellFormed(buffer) && HasBridge(buffer, id)
    ensures IdsWellFormed(RunIn(buffer, id))
  {
    RunInShape(buffer, id);
    var run := RunIn(buffer, id);
    assert forall i | 0 <= i < |run| :: run[i] in buffer;
  }

  lemma ReconciledBook(buffer: seq<DepthUpdate>, b: Book, id: nat)
    requires HasBridge(buffer, id)
    ensures var f, run := ReconcileStep(Buffered(buffer, b), id).0, RunIn(buffer, id);
      f.book == EventsApplied(b, run).0 && f.sync.lastAppliedU == Some(run[|run| - 1].finalId)
  {
    hide EventsApplied;
  }

  lemma FitSuffices(h: History, buffer: seq<DepthUpdate>, delivered: seq<DepthUpdate>, b: Book, id: nat, n: nat)
    requires SameIds(delivered, buffer) && FaithfulAll(h, delivered) && BookIs(h, b, n)
    requires HasBridge(buffer, id) && RunFits(RunIn(buffer, id), n)
    ensures ReconcilesRight(h, delivered, b, id)
  {
    hide HasBridge, RunIn, BookIs, Faithful, EventsApplied, ReconcileStep;
    SameIdsSameRun(delivered, buffer, id);
    RunInShape(delivered, id);
    RunInFaithful(h, delivered, id);
    ReconciledBook(delivered, b, id);
    RunSound(h, b, n, RunIn(delivered, id));
  }

  lemma InitializedNeeded(h: History, buffer: seq<DepthUpdate>, delivered: seq<DepthUpdate>, b: Book, id: nat)
    requires SameIds(delivered, buffer) && HasBridge(buffer, id)
    ensures !ReconcilesRight(h, delivered, b.(initialized := false), id)
  {
    hide HasBridge, RunIn, ReconcileStep;
    SameIdsSameRun(delivered, buffer, id);
    ReconciledBook(delivered, b.(initialized := false), id);
    var run := RunIn(delivered, id);
    assert EventsApplied(b.(initialized := false), run) == (b.(initialized := false), false);
  }

  lemma MarkedGoesWrong(h: History, buffer: seq<DepthUpdate>, delivered: seq<DepthUpdate>, b: Book, id: nat, n: nat,
                        mark: Mark)
    requires SameIds(delivered, buffer) && FaithfulAll(h, delivered) && BookIs(h, b, n)
    requires forall e | e in delivered :: MentionsMarkExactly(e, mark)
    requires HasBridge(buffer, id) && IdsWellFormed(RunIn(buffer, id)) && !RunFits(RunIn(buffer, id), n)
    requires mark == MarkFor(RunIn(buffer, id), n) && h == MarkedHistory(|h|, mark)
    ensures !ReconcilesRight(h, delivered, b, id)
  {
    hide HasBridge, RunIn, ReconcileStep, BookIs, Faithful, EventsApplied, MentionsMarkExactly;
    SameIdsSameRun(delivered, buffer, id);
    RunInShape(delivered, id);
    RunInFaithful(h, delivered, id);
    ReconciledBook(delivered, b, id);
    MisfitMissesMark(h, b, n, RunIn(delivered, id), mark);
  }

  ghost function MarkedBuffer(h: History, buffer: seq<DepthUpdate>, mark: Mark): (r: seq<DepthUpdate>)
    ensures SameIds(r, buffer)
  {
    seq(|buffer|, i requires 0 <= i < |buffer| => Marked(h, buffer[i], mark))
  }

  lemma MarkedBufferIsFaithful(h: History, buffer: seq<DepthUpdate>, mark: Mark)
    requires mark.at >= 1 && h == MarkedHistory(|h|, mark) && Bound(buffer) <= |h|
    requires IdsWellFormed(buffer)
    ensures FaithfulAll(h, MarkedBuffer(h, buffer, mark))
    ensures forall e | e in MarkedBuffer(h, buffer, mark) :: MentionsMarkExactly(e, mark)
  {
    hide Faithful, MentionsMarkExactly;
    forall i | 0 <= i < |buffer|
      ensures Faithful(h, MarkedBuffer(h, buffer, mark)[i])
      ensures MentionsMarkExactly(MarkedBuffer(h, buffer, mark)[i], mark)
    {
      BoundHolds(buffer, i);
      MarkedIsFaithful(h, buffer[i], mark);
    }
  }

  /** Change number `at` is the first one at the marked price, and the next one is the second if `twice`. */
  datatype Mark = Mark(at: nat, twice: bool)

  /** A change that shows what is wrong with a run that does not fit a book at `n`: the book or the run
      skips it, the book is ahead of the run with it, or the first event undoes it. */
  function MarkFor(run: seq<DepthUpdate>, n: nat): (mark: Mark)
    requires run != [] && IdsWellFormed(run)
    ensures mark.at >= 1
  {
    var first, last := run[0], run[|run| - 1].finalId;
    if |run| >= 2 && run[1].previousFinalId > first.finalId then Mark(first.finalId, true)
    else if first.finalId > last then Mark(first.finalId, false)
    else if n > last then Mark(n, false)
    else Mark(n + 1, false)
  }

  const OTHER_PRICE := 1
  const MARK_PRICE := 2

  /** A history whose marked changes are the only ones at `MARK_PRICE`. */
  function MarkedHistory(n: nat, mark: Mark): (h: History)
    ensures |h| == n
  {
    seq(n, i requires 0 <= i < n => MarkedChange(i + 1, mark))
  }

  function MarkedChange(id: nat, mark: Mark): Change {
    if id == mark.at then Change(Bid, MARK_PRICE, 5)
    else if mark.twice && id == mark.at + 1 then Change(Bid, MARK_PRICE, 7)
    else Change(Bid, OTHER_PRICE, 1)
  }

  /** What the marked price displays at an id. */
  function MarkedQuantity(mark: Mark, at: nat): nat {
    if at < mark.at then 0 else if mark.twice && at > mark.at then 7 else 5
  }

  /** The event reports a marked change. */
  predicate Reports(e: DepthUpdate, mark: Mark) {
    || e.previousFinalId < mark.at <= e.finalId
    || (mark.twice && e.previousFinalId < mark.at + 1 <= e.finalId)
  }

  lemma {:induction false} MarkedLadder(n: nat, mark: Mark, at: nat)
    requires mark.at >= 1 && at <= n
    ensures Quantity(LadderAt(MarkedHistory(n, mark), at, Bid), MARK_PRICE) == MarkedQuantity(mark, at)
    ensures LadderAt(MarkedHistory(n, mark), at, Ask) == map[]
    decreases at
  {
    if at > 0 {
      MarkedLadder(n, mark, at - 1);
      assert MarkedHistory(n, mark)[at - 1] == MarkedChange(at, mark);
    }
  }

  /** The event with the ids of `e` that the marked history produces. */
  ghost function Marked(h: History, e: DepthUpdate, mark: Mark): DepthUpdate {
    var other := if e.finalId <= |h| then Quantity(LadderAt(h, e.finalId, Bid), OTHER_PRICE) else 0;
    e.(bids := [Quote(Exact(OTHER_PRICE), Exact(other))] + MarkQuotes(e, mark), asks := [])
  }

  function MarkQuotes(e: DepthUpdate, mark: Mark): seq<Quote> {
    if Reports(e, mark) then [Quote(Exact(MARK_PRICE), Exact(MarkedQuantity(mark, e.finalId)))] else []
  }

  ghost predicate Mentions(quotes: seq<Quote>, price: nat)
    requires WellFormed(quotes)
  {
    exists i :: 0 <= i < |quotes| && LevelOf(quotes[i]).price == price
  }

  /** The event mentions the marked price iff it reports a marked change. */
  ghost predicate MentionsMarkExactly(e: DepthUpdate, mark: Mark) {
    WellFormed(e.bids) && e.asks == [] && (Mentions(e.bids, MARK_PRICE) <==> Reports(e, mark))
  }

  lemma MarkedIsFaithful(h: History, e: DepthUpdate, mark: Mark)
    requires mark.at >= 1 && h == MarkedHistory(|h|, mark)
    requires e.previousFinalId < e.firstId <= e.finalId <= |h|
    ensures Faithful(h, Marked(h, e, mark)) && MentionsMarkExactly(Marked(h, e, mark), mark)
  {
    var m := Marked(h, e, mark);
    var other := Quantity(LadderAt(h, e.finalId, Bid), OTHER_PRICE);
    ExactParses(OTHER_PRICE);
    ExactParses(MARK_PRICE);
    ExactParses(MarkedQuantity(mark, e.finalId));
    ExactParses(other);
    MarkedLadder(|h|, mark, e.finalId);
    assert LevelOf(m.bids[0]) == Level(OTHER_PRICE, other);
    if Reports(e, mark) { assert LevelOf(m.bids[1]) == Level(MARK_PRICE, MarkedQuantity(mark, e.finalId)); }
    forall p | Touched(h, e.previousFinalId, e.finalId, Bid, p)
      ensures exists i :: 0 <= i < |m.bids| && LevelOf(m.bids[i]).price == p
    {
      MarkedTouches(h, e, mark, p);
      if p == OTHER_PRICE { assert LevelOf(m.bids[0]).price == p; } else { assert LevelOf(m.bids[1]).price == p; }
    }
    assert forall p :: !Touched(h, e.previousFinalId, e.finalId, Ask, p);
  }

  lemma MarkedTouches(h: History, e: DepthUpdate, mark: Mark, p: nat)
    requires h == MarkedHistory(|h|, mark) && e.finalId <= |h| && Touched(h, e.previousFinalId, e.finalId, Bid, p)
    ensures p == OTHER_PRICE || (p == MARK_PRICE && Reports(e, mark))
  {
    var i :| e.previousFinalId <= i < e.finalId && h[i].side == Bid && h[i].price == p;
    assert h[i] == MarkedChange(i + 1, mark);
  }

  function Bound(buffer: seq<DepthUpdate>): nat {
    if buffer == [] then 0 else buffer[0].finalId + Bound(buffer[1..])
  }

  lemma {:induction false} BoundHolds(buffer: seq<DepthUpdate>, i: nat)
    requires i < |buffer|
    ensures buffer[i].finalId <= Bound(buffer)
  {
    if i > 0 { BoundHolds(buffer[1..], i - 1); }
  }

  /** One event at the marked price: it writes the quantity at its own end, or nothing. */
  lemma MarkAfter(h: History, b: Book, e: DepthUpdate, mark: Mark)
    requires b.initialized && mark.at >= 1 && h == MarkedHistory(|h|, mark)
    requires Faithful(h, e) && MentionsMarkExactly(e, mark)
    ensures UpdateApplied(b, e.bids, e.asks, e.finalId).1 && After(b, e).initialized
    ensures Quantity(After(b, e).bids, MARK_PRICE)
         == if Reports(e, mark) then MarkedQuantity(mark, e.finalId) else Quantity(b.bids, MARK_PRICE)
  {
    var levels := LevelsOf(e.bids);
    ApplyQuotesIsOverlay(b.bids, e.bids);
    ApplyQuotesIsOverlay(b.asks, e.asks);
    OverlayQuantity(b.bids, levels, MARK_PRICE);
    LastMentionIsMention(levels, MARK_PRICE);
    MarkedLadder(|h|, mark, e.finalId);
    if LastMention(levels, MARK_PRICE).Some? {
      var i :| 0 <= i < |levels| && levels[i] == Level(MARK_PRICE, LastMention(levels, MARK_PRICE).value);
      assert LevelOf(e.bids[i]) == levels[i];
    } else {
      assert forall i | 0 <= i < |levels| :: levels[i].price != MARK_PRICE;
    }
  }

  /** Events that report no marked change leave the marked price alone. */
  lemma {:induction false} UnmentionedStays(h: History, b: Book, events: seq<DepthUpdate>, mark: Mark)
    requires b.initialized && mark.at >= 1 && h == MarkedHistory(|h|, mark) && FaithfulAll(h, events)
    requires forall e | e in events :: MentionsMarkExactly(e, mark) && !Reports(e, mark)
    ensures EventsApplied(b, events).1
    ensures Quantity(EventsApplied(b, events).0.bids, MARK_PRICE) == Quantity(b.bids, MARK_PRICE)
    decreases |events|
  {
    hide UpdateApplied, Faithful, MentionsMarkExactly, MarkedHistory, Reports;
    if events != [] {
      var e := events[0];
      assert e in events;
      MarkAfter(h, b, e, mark);
      assert FaithfulAll(h, events[1..]);
      UnmentionedStays(h, After(b, e), events[1..], mark);
    }
  }

  lemma {:induction false} ChainBounds(events: seq<DepthUpdate>, i: nat)
    requires IdsWellFormed(events) && ChainedTo(events, |events|) && i < |events|
    ensures events[0].previousFinalId <= events[i].previousFinalId
    ensures events[i].finalId <= events[|events| - 1].finalId
    decreases |events|
  {
    if |events| > 1 {
      assert events[1].previousFinalId == events[0].finalId;
      var rest := events[1..];
      assert IdsWellFormed(rest) && ChainedTo(rest, |rest|);
      ChainBounds(rest, if i == 0 then 0 else i - 1);
    }
  }

  /** The chain behind the first event reports no marked change. */
  lemma ChainIsSilent(run: seq<DepthUpdate>, n: nat)
    requires run != [] && IdsWellFormed(run) && ChainedTo(run[1..], |run| - 1) && !RunFits(run, n)
    ensures forall e | e in run[1..] :: !Reports(e, MarkFor(run, n))
  {
    var rest := run[1..];
    forall e | e in rest ensures !Reports(e, MarkFor(run, n)) {
      var i :| 0 <= i < |rest| && rest[i] == e;
      assert IdsWellFormed(rest);
      ChainBounds(rest, i);
      assert rest[|rest| - 1] == run[|run| - 1] && rest[0] == run[1];
    }
  }

  /** What the marked price should show at the end, against what the first event leaves there. */
  lemma MisfitIsVisible(run: seq<DepthUpdate>, n: nat)
    requires run != [] && IdsWellFormed(run) && ChainedTo(run[1..], |run| - 1) && !RunFits(run, n)
    ensures var mark, first, last := MarkFor(run, n), run[0], run[|run| - 1].finalId;
      MarkedQuantity(mark, last)
      != if Reports(first, mark) then MarkedQuantity(mark, first.finalId) else MarkedQuantity(mark, n)
  {
    if |run| >= 2 {
      var rest := run[1..];
      assert IdsWellFormed(rest);
      ChainBounds(rest, |rest| - 1);
      assert rest[|rest| - 1] == run[|run| - 1] && rest[0] == run[1];
    }
  }

  /** In the marked history a run that does not fit ends with the wrong quantity at the marked price. */
  lemma MisfitMissesMark(h: History, b: Book, n: nat, run: seq<DepthUpdate>, mark: Mark)
    requires run != [] && IdsWellFormed(run) && ChainedTo(run[1..], |run| - 1) && !RunFits(run, n)
    requires mark == MarkFor(run, n) && h == MarkedHistory(|h|, mark) && BookIs(h, b, n)
    requires FaithfulAll(h, run) && forall e | e in run :: MentionsMarkExactly(e, mark)
    ensures !BookIs(h, EventsApplied(b, run).0, run[|run| - 1].finalId)
  {
    hide UpdateApplied, Faithful, MentionsMarkExactly, MarkFor, RunFits, Reports, MarkedQuantity, MarkedHistory;
    var rest, last := run[1..], run[|run| - 1].finalId;
    assert run[0] in run;
    MarkAfter(h, b, run[0], mark);
    var mid := After(b, run[0]);
    ChainIsSilent(run, n);
    assert FaithfulAll(h, rest);
    UnmentionedStays(h, mid, rest, mark);
    MisfitIsVisible(run, n);
    MarkedLadder(|h|, mark, n);
    FaithfulEnds(h, run[|run| - 1]);
    MarkedLadder(|h|, mark, last);
    assert EventsApplied(b, run) == EventsApplied(mid, rest);
  }

  lemma FaithfulEnds(h: History, e: DepthUpdate)
    requires Faithful(h, e)
    ensures e.finalId <= |h|
  {
  }
}
