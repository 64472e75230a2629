/** Runs in which every fetch is an episode of its own, and runs in which the missing checks show. */
module SyncEpisodes {
  import opened DepthFeed
  import opened Exchange
  import opened Levels
  import opened Options
  import opened OrderBooks
  import opened Synchronization
  import opened SyncSafety
  import opened Wire

  /** A single action, or one whole fetch: events that arrive while it loads, its snapshot, events that
      arrive before it reconciles. */
  datatype Episode =
    | Opened
    | Lost
    | Heard(event: DepthUpdate)
    | Failed
    | Fetched(between: seq<DepthUpdate>, bids: seq<Quote>, asks: seq<Quote>, id: nat, after: seq<DepthUpdate>,
              again: bool)

  function DepthsOf(events: seq<DepthUpdate>): (r: seq<Step>)
    ensures |r| == |events|
    ensures forall i | 0 <= i < |r| :: r[i] == Depth(events[i])
  {
    seq(|events|, i requires 0 <= i < |events| => Depth(events[i]))
  }

  function StepsOf(x: Episode): seq<Step> {
    match x
    case Opened => [Connect]
    case Lost => [Disconnect]
    case Heard(e) => [Depth(e)]
    case Failed => [FetchFailed]
    case Fetched(between, bids, asks, id, after, again) =>
      [SnapshotRequested] + DepthsOf(between) + [SnapshotReceived(bids, asks, id)] + DepthsOf(after)
      + [LastStep(id, again)]
  }

  function LastStep(id: nat, again: bool): Step {
    if again then ReconcileAgain(id) else Reconcile(id)
  }

  function Steps(episodes: seq<Episode>): seq<Step> {
    if episodes == [] then []
    else Steps(episodes[..|episodes| - 1]) + StepsOf(episodes[|episodes| - 1])
  }

  ghost predicate EpisodeDelivered(h: History, x: Episode) {
    match x
    case Heard(e) => Faithful(h, e)
    case Fetched(between, bids, asks, id, after, _) =>
      FaithfulAll(h, between) && FaithfulSnapshot(h, bids, asks, id) && FaithfulAll(h, after)
    case _ => true
  }

  /** The pair that the documentation wants checked and the code does not: the event after the bridge
      starts exactly where the bridge ended. */
  predicate PairChained(buffer: seq<DepthUpdate>, id: nat) {
    HasBridge(buffer, id) ==>
      var run := RunIn(buffer, id);
      |run| >= 2 ==> run[1].previousFinalId == run[0].finalId
  }

  /** All that is assumed of the update ids: at every fetch the unchecked pair overlaps, or passes the
      documented check. */
  predicate PairGood(buffer: seq<DepthUpdate>, id: nat, documented: bool) {
    if documented then PairChained(buffer, id) else PairOverlaps(buffer, id)
  }

  predicate EpisodeGuard(f: Feed, x: Episode, documented: bool) {
    x.Fetched? ==> PairGood(f.sync.buffer, x.id, documented)
  }

  ghost predicate GoodEpisodes(h: History, episodes: seq<Episode>, documented: bool) {
    episodes == []
    || (var before, x := episodes[..|episodes| - 1], episodes[|episodes| - 1];
        GoodEpisodes(h, before, documented) && EpisodeDelivered(h, x)
        && EpisodeGuard(RunOf(Steps(before)), x, documented))
  }

  /** Steps from a given state, and their guards. */
  function RunFrom(f: Feed, steps: seq<Step>): Feed
    decreases |steps|
  {
    if steps == [] then f else RunFrom(Next(f, steps[0]), steps[1..])
  }

  ghost predicate GoodFrom(h: History, f: Feed, steps: seq<Step>)
    decreases |steps|
  {
    steps == [] || (Delivered(h, steps[0]) && Guard(f, steps[0]) && GoodFrom(h, Next(f, steps[0]), steps[1..]))
  }

  lemma {:induction false} GoodRunContinues(h: History, steps: seq<Step>, more: seq<Step>)
    requires GoodRun(h, steps) && GoodFrom(h, RunOf(steps), more)
    ensures GoodRun(h, steps + more) && RunOf(steps + more) == RunFrom(RunOf(steps), more)
    decreases |more|
  {
    hide Next, Guard, Delivered;
    if more == [] {
      assert steps + more == steps;
    } else {
      var longer := steps + [more[0]];
      assert longer[..|longer| - 1] == steps;
      assert longer + more[1..] == steps + more;
      GoodRunContinues(h, longer, more[1..]);
    }
  }

  lemma {:induction false} GoodFromSplits(h: History, f: Feed, a: seq<Step>, b: seq<Step>)
    requires GoodFrom(h, f, a) && GoodFrom(h, RunFrom(f, a), b)
    ensures GoodFrom(h, f, a + b) && RunFrom(f, a + b) == RunFrom(RunFrom(f, a), b)
    decreases |a|
  {
    hide Next, Guard, Delivered;
    if a == [] {
      assert a + b == b;
    } else {
      assert (a + b)[1..] == a[1..] + b;
      GoodFromSplits(h, Next(f, a[0]), a[1..], b);
    }
  }

  lemma {:induction false} LoadingDepths(h: History, f: Feed, events: seq<DepthUpdate>)
    requires f.sync.phase == SnapshotLoading && FaithfulAll(h, events)
    ensures GoodFrom(h, f, DepthsOf(events)) && RunFrom(f, DepthsOf(events)) == f
    decreases |events|
  {
    hide Faithful;
    if events != [] {
      assert DepthsOf(events)[1..] == DepthsOf(events[1..]);
      LoadingDepths(h, f, events[1..]);
    }
  }

  lemma SingleGood(h: History, f: Feed, step: Step)
    requires Delivered(h, step) && Guard(f, step)
    ensures GoodFrom(h, f, [step]) && RunFrom(f, [step]) == Next(f, step)
  {
    hide Next, Guard, Delivered;
    assert [step][1..] == [];
  }

  /** Checking the pair as documented is enough. */
  lemma ChainedPairOverlaps(h: History, buffer: seq<DepthUpdate>, id: nat)
    requires FaithfulAll(h, buffer) && PairChained(buffer, id)
    ensures PairOverlaps(buffer, id)
  {
    hide StatesLadder, RunIn;
    if HasBridge(buffer, id) {
      var run := RunIn(buffer, id);
      RunInShape(buffer, id);
      RunInFaithful(h, buffer, id);
      if |run| >= 2 { ChainAscends(h, run[1..]); }
    }
  }

  lemma {:induction false} ChainAscends(h: History, events: seq<DepthUpdate>)
    requires FaithfulAll(h, events) && events != [] && ChainedTo(events, |events|)
    ensures events[0].finalId <= events[|events| - 1].finalId
    decreases |events|
  {
    hide StatesLadder;
    if |events| > 1 {
      assert events[1].previousFinalId == events[0].finalId;
      ChainAscends(h, events[1..]);
    }
  }

  /** A fetch that nothing but depth events interrupts meets every guard on the book by construction. */
  lemma FetchTaskMeetsGuards(h: History, f: Feed, x: Episode, documented: bool)
    requires InStep(h, f) && x.Fetched? && EpisodeDelivered(h, x) && EpisodeGuard(f, x, documented)
    ensures GoodFrom(h, f, StepsOf(x))
    ensures !x.again ==> RunFrom(f, StepsOf(x)) == SnapshotStep(f, x.bids, x.asks, x.id).0
  {
    hide GoodFrom, RunFrom, PairOverlaps, PairChained, FaithfulAll, FaithfulSnapshot, RunIn, StaleCount, BridgeIndex;
    hide SnapshotApplied, BookIs;
    var received, last := SnapshotReceived(x.bids, x.asks, x.id), LastStep(x.id, x.again);
    var requested := Next(f, SnapshotRequested);
    SingleGood(h, f, SnapshotRequested);
    LoadingDepths(h, requested, x.between);
    SingleGood(h, requested, received);
    SnapshotLoads(h, requested.book, x.bids, x.asks, x.id);
    var loaded := Next(requested, received);
    LoadedIsInitialized(h, loaded.book, x.id);
    LoadingDepths(h, loaded, x.after);
    if documented { ChainedPairOverlaps(h, f.sync.buffer, x.id); }
    OverlapGuards(h, loaded, x.id);
    SingleGood(h, loaded, last);
    GoodFromSplits(h, f, [SnapshotRequested], DepthsOf(x.between));
    GoodFromSplits(h, f, [SnapshotRequested] + DepthsOf(x.between), [received]);
    GoodFromSplits(h, f, [SnapshotRequested] + DepthsOf(x.between) + [received], DepthsOf(x.after));
    GoodFromSplits(h, f, [SnapshotRequested] + DepthsOf(x.between) + [received] + DepthsOf(x.after), [last]);
  }

  lemma LoadedIsInitialized(h: History, b: Book, id: nat)
    requires BookIs(h, b, id)
    ensures b.initialized && b.lastUpdateId == id
  {
  }

  lemma OverlapGuards(h: History, f: Feed, id: nat)
    requires FaithfulAll(h, f.sync.buffer) && PairOverlaps(f.sync.buffer, id)
    requires f.book.initialized && f.book.lastUpdateId == id
    ensures ReconcileGuard(f, id)
  {
    hide Faithful, RunFits, RunOverlaps, RunIn;
    if HasBridge(f.sync.buffer, id) { FitsIsOverlap(h, f.sync.buffer, id); }
  }

  lemma EpisodeMeetsGuards(h: History, f: Feed, x: Episode, documented: bool)
    requires InStep(h, f) && EpisodeDelivered(h, x) && EpisodeGuard(f, x, documented)
    ensures GoodFrom(h, f, StepsOf(x))
  {
    hide GoodFrom, InStep, PairGood, FaithfulSnapshot, Faithful;
    match x {
      case Opened => SingleGood(h, f, Connect);
      case Lost => SingleGood(h, f, Disconnect);
      case Heard(e) => SingleGood(h, f, Depth(e));
      case Failed => SingleGood(h, f, FetchFailed);
      case Fetched(_, _, _, _, _, _) => FetchTaskMeetsGuards(h, f, x, documented);
    }
  }

  lemma {:induction false} EpisodesAreGood(h: History, episodes: seq<Episode>, documented: bool)
    requires GoodEpisodes(h, episodes, documented)
    ensures GoodRun(h, Steps(episodes))
    decreases |episodes|
  {
    hide EpisodeGuard, EpisodeDelivered, StepsOf, GoodRun, GoodFrom;
    if episodes == [] {
      NoSteps(h);
    } else {
      var before, x := episodes[..|episodes| - 1], episodes[|episodes| - 1];
      EpisodesAreGood(h, before, documented);
      RunsStayInStep(h, Steps(before));
      EpisodeMeetsGuards(h, RunOf(Steps(before)), x, documented);
      GoodRunContinues(h, Steps(before), StepsOf(x));
    }
  }

  lemma NoSteps(h: History)
    ensures GoodRun(h, [])
  {
  }

  /** Synchronization safety without any condition on the book: in every run of connections, losses,
      failed requests, depth events and fetches that do not overlap, Ready implies the exchange's book, if
      at each fetch the unchecked pair overlaps, or if it passes the documented check. */
  lemma EpisodesStaySynchronized(h: History, episodes: seq<Episode>, documented: bool)
    requires GoodEpisodes(h, episodes, documented)
    ensures var f := RunOf(Steps(episodes));
      f.sync.phase == Ready ==> f.sync.lastAppliedU.Some? && BookIs(h, f.book, f.sync.lastAppliedU.value)
  {
    EpisodesAreGood(h, episodes, documented);
    ReadyMeansSynchronized(h, Steps(episodes));
  }

  /** Everything that was delivered is faithful, the synchronizer is ready, and the book is not the
      exchange's book at the id that it reports. */
  ghost predicate GoesWrong(h: History, steps: seq<Step>) {
    var f := RunOf(steps);
    && (forall i | 0 <= i < |steps| :: Delivered(h, steps[i]))
    && f.sync.phase == Ready && f.sync.lastAppliedU.Some?
    && !BookIs(h, f.book, f.sync.lastAppliedU.value)
  }

  function QuoteAt(price: nat, quantity: nat): Quote {
    Quote(Exact(price), Exact(quantity))
  }

  const ThreeChanges: History := [Change(Bid, 1, 5), Change(Bid, 2, 7), Change(Bid, 1, 6)]
  const FirstEvent := DepthUpdate(0, 0, 1, 1, 0, [QuoteAt(1, 5)], [])
  const ThirdEvent := DepthUpdate(0, 0, 3, 3, 2, [QuoteAt(1, 6)], [])

  /** Two fetches overlap: the second one's snapshot is in the book when the first one reconciles. */
  const OverlappingFetches: seq<Step> :=
    [Connect, Depth(FirstEvent), SnapshotRequested, SnapshotReceived([QuoteAt(1, 5)], [], 1), SnapshotRequested,
     SnapshotReceived([QuoteAt(1, 5), QuoteAt(2, 7)], [], 2), Reconcile(1)]

  /** One fetch, and the event between two buffered ones lost. */
  const LostEvent: seq<Step> :=
    [Connect, Depth(FirstEvent), Depth(ThirdEvent), SnapshotRequested, SnapshotReceived([QuoteAt(1, 5)], [], 1),
     Reconcile(1)]

  lemma LaddersOfThree()
    ensures LadderAt(ThreeChanges, 0, Bid) == map[] && LadderAt(ThreeChanges, 1, Bid) == map[1 := 5]
    ensures LadderAt(ThreeChanges, 2, Bid) == map[1 := 5, 2 := 7]
    ensures LadderAt(ThreeChanges, 3, Bid) == map[1 := 6, 2 := 7]
    ensures forall n: nat | n <= 3 :: LadderAt(ThreeChanges, n, Ask) == map[]
  {
    assert LadderAt(ThreeChanges, 1, Bid) == map[1 := 5];
    assert LadderAt(ThreeChanges, 2, Bid) == map[1 := 5, 2 := 7];
    assert LadderAt(ThreeChanges, 0, Ask) == map[] && LadderAt(ThreeChanges, 1, Ask) == map[];
    assert LadderAt(ThreeChanges, 2, Ask) == map[] && LadderAt(ThreeChanges, 3, Ask) == map[];
  }

  lemma OneMoreStep(steps: seq<Step>, x: Step)
    ensures RunOf(steps + [x]) == Next(RunOf(steps), x)
  {
    assert (steps + [x])[..|steps|] == steps;
  }

  lemma QuotesStated()
    ensures forall p, q :: WellFormedQuote(QuoteAt(p, q)) && LevelOf(QuoteAt(p, q)) == Level(p, q)
  {
    forall p, q ensures WellFormedQuote(QuoteAt(p, q)) && LevelOf(QuoteAt(p, q)) == Level(p, q) {
      ExactParses(p);
      ExactParses(q);
    }
  }

  lemma MessagesAreFaithful()
    ensures Faithful(ThreeChanges, FirstEvent) && Faithful(ThreeChanges, ThirdEvent)
    ensures FaithfulSnapshot(ThreeChanges, [QuoteAt(1, 5)], [], 1)
    ensures FaithfulSnapshot(ThreeChanges, [QuoteAt(1, 5), QuoteAt(2, 7)], [], 2)
  {
    LaddersOfThree();
    QuotesStated();
    StatesOne(5, 0, 1);
    StatesOne(6, 2, 3);
    StatesTwo();
    StatesNone(0, 1);
    StatesNone(2, 3);
    StatesNone(0, 2);
  }

  lemma StatesOne(q: nat, from: nat, at: nat)
    requires (q, from, at) == (5, 0, 1) || (q, from, at) == (6, 2, 3)
    ensures StatesLadder(ThreeChanges, [QuoteAt(1, q)], from, at, Bid)
  {
    LaddersOfThree();
    QuotesStated();
    var quotes := [QuoteAt(1, q)];
    forall p | Touched(ThreeChanges, from, at, Bid, p)
      ensures exists i :: 0 <= i < |quotes| && LevelOf(quotes[i]).price == p
    {
      assert LevelOf(quotes[0]).price == 1;
    }
  }

  lemma StatesTwo()
    ensures StatesLadder(ThreeChanges, [QuoteAt(1, 5), QuoteAt(2, 7)], 0, 2, Bid)
  {
    LaddersOfThree();
    QuotesStated();
    var quotes := [QuoteAt(1, 5), QuoteAt(2, 7)];
    forall p | Touched(ThreeChanges, 0, 2, Bid, p)
      ensures exists i :: 0 <= i < |quotes| && LevelOf(quotes[i]).price == p
    {
      assert LevelOf(quotes[0]).price == 1 && LevelOf(quotes[1]).price == 2;
    }
  }

  lemma StatesNone(from: nat, at: nat)
    requires from <= at <= 3
    ensures StatesLadder(ThreeChanges, [], from, at, Ask)
  {
  }

  /** Loading the first snapshot, and applying the two events. */
  lemma BooksOfThree(b: Book)
    ensures SnapshotApplied(b, [QuoteAt(1, 5)], [], 1) == (Book(map[1 := 5], map[], 1, true), true)
    ensures SnapshotApplied(b, [QuoteAt(1, 5), QuoteAt(2, 7)], [], 2)
         == (Book(map[1 := 5, 2 := 7], map[], 2, true), true)
  {
    MessagesAreFaithful();
    LaddersOfThree();
    SnapshotLoads(ThreeChanges, b, [QuoteAt(1, 5)], [], 1);
    SnapshotLoads(ThreeChanges, b, [QuoteAt(1, 5), QuoteAt(2, 7)], [], 2);
  }

  lemma EventsOfThree(bids: Ladder, id: nat, e: DepthUpdate, q: nat)
    requires e.bids == [QuoteAt(1, q)] && e.asks == [] && q > 0
    ensures UpdateApplied(Book(bids, map[], id, true), e.bids, e.asks, e.finalId)
         == (Book(bids[1 := q], map[], e.finalId, true), true)
  {
    QuotesStated();
    assert e.bids[1..] == [];
    assert ApplyQuotes(bids, e.bids) == ApplyQuotes(SetLevel(bids, 1, q), []);
  }

  /** The state in which a fetch reconciles with snapshot 1. */
  function Loading(buffer: seq<DepthUpdate>, b: Book): Feed {
    Feed(Connected(FreshSync).(phase := SnapshotLoading, received := |buffer|, buffer := buffer), b)
  }

  lemma FirstLoads()
    ensures RunOf(OverlappingFetches[..4]) == Loading([FirstEvent], Book(map[1 := 5], map[], 1, true))
  {
    hide SnapshotApplied;
    BooksOfThree(EmptyBook);
    var s := OverlappingFetches;
    OneMoreStep([], s[0]);
    OneMoreStep([s[0]], s[1]);
    OneMoreStep([s[0], s[1]], s[2]);
    OneMoreStep([s[0], s[1], s[2]], s[3]);
    assert s[..4] == [s[0], s[1], s[2]] + [s[3]];
    assert [] + [s[0]] == [s[0]] && [s[0]] + [s[1]] == [s[0], s[1]];
    assert [s[0], s[1]] + [s[2]] == [s[0], s[1], s[2]];
    assert [] + [FirstEvent] == [FirstEvent];
  }

  lemma OverlapLoads()
    ensures RunOf(OverlappingFetches[..6]) == Loading([FirstEvent], Book(map[1 := 5, 2 := 7], map[], 2, true))
  {
    hide SnapshotApplied;
    FirstLoads();
    BooksOfThree(Book(map[1 := 5], map[], 1, true));
    var s := OverlappingFetches;
    OneMoreStep(s[..4], s[4]);
    OneMoreStep(s[..5], s[5]);
    assert s[..5] == s[..4] + [s[4]] && s[..6] == s[..5] + [s[5]];
  }

  lemma LostLoads()
    ensures RunOf(LostEvent[..5]) == Loading([FirstEvent, ThirdEvent], Book(map[1 := 5], map[], 1, true))
  {
    hide SnapshotApplied;
    BooksOfThree(EmptyBook);
    var s := LostEvent;
    OneMoreStep([], s[0]);
    OneMoreStep([s[0]], s[1]);
    OneMoreStep([s[0], s[1]], s[2]);
    OneMoreStep([s[0], s[1], s[2]], s[3]);
    OneMoreStep([s[0], s[1], s[2], s[3]], s[4]);
    assert s[..5] == [s[0], s[1], s[2], s[3]] + [s[4]];
    assert [] + [s[0]] == [s[0]] && [s[0]] + [s[1]] == [s[0], s[1]];
    assert [s[0], s[1]] + [s[2]] == [s[0], s[1], s[2]];
    assert [s[0], s[1], s[2]] + [s[3]] == [s[0], s[1], s[2], s[3]];
    assert [] + [FirstEvent] == [FirstEvent] && [FirstEvent] + [ThirdEvent] == [FirstEvent, ThirdEvent];
  }

  lemma ShortRuns(buffer: seq<DepthUpdate>)
    requires buffer == [FirstEvent] || buffer == [FirstEvent, ThirdEvent]
    ensures HasBridge(buffer, 1) && RunIn(buffer, 1) == buffer
  {
    assert StaleCount(buffer, 1) == 0 && buffer[0..] == buffer;
    assert BridgeIndex(buffer, 1) == Some(0);
    if |buffer| == 2 {
      assert buffer[1..] == [ThirdEvent];
      assert buffer[..2] == buffer;
    } else {
      assert buffer[1..] == [];
      assert buffer[..1] == buffer;
    }
  }

  /** Two overlapping fetches go wrong although there is no unchecked pair: the book is that of the second
      snapshot, and the first fetch reports its own id. */
  lemma OverlappingFetchesGoWrong()
    ensures GoesWrong(ThreeChanges, OverlappingFetches)
    ensures PairOverlaps(RunOf(OverlappingFetches[..6]).sync.buffer, 1)
    ensures !ReconcileGuard(RunOf(OverlappingFetches[..6]), 1)
  {
    hide UpdateApplied, SnapshotApplied, LadderAt, Faithful, FaithfulSnapshot, HasBridge, StaleCount, BridgeIndex, Run;
    MessagesAreFaithful();
    LaddersOfThree();
    OverlapLoads();
    ShortRuns([FirstEvent]);
    var f := RunOf(OverlappingFetches[..6]);
    EventsOfThree(f.book.bids, 2, FirstEvent, 5);
    assert EventsApplied(f.book, [FirstEvent]).0 == Book(map[1 := 5, 2 := 7], map[], 1, true) by {
      assert [FirstEvent][1..] == [];
    }
    ReconciledRun(f, 1);
    assert RunOf(OverlappingFetches) == Next(f, Reconcile(1));
    OverlapDelivered();
    WrongLadder(RunOf(OverlappingFetches).book, 1, map[1 := 5]);
  }

  /** The pair that is not checked goes wrong in a run of a single fetch: the event between two buffered
      ones was lost, and its change is missing from the book. */
  lemma LostEventGoesWrong()
    ensures GoesWrong(ThreeChanges, LostEvent)
    ensures !PairOverlaps(RunOf(LostEvent[..5]).sync.buffer, 1)
    ensures LostEvent
         == Steps([Opened, Heard(FirstEvent), Heard(ThirdEvent), Fetched([], [QuoteAt(1, 5)], [], 1, [], false)])
  {
    hide UpdateApplied, SnapshotApplied, LadderAt, Faithful, FaithfulSnapshot, HasBridge, StaleCount, BridgeIndex, Run;
    MessagesAreFaithful();
    LaddersOfThree();
    LostLoads();
    ShortRuns([FirstEvent, ThirdEvent]);
    var f := RunOf(LostEvent[..5]);
    EventsOfThree(f.book.bids, 1, FirstEvent, 5);
    EventsOfThree(map[1 := 5], 1, ThirdEvent, 6);
    assert EventsApplied(f.book, [FirstEvent, ThirdEvent]).0 == Book(map[1 := 6], map[], 3, true) by {
      assert [FirstEvent, ThirdEvent][1..] == [ThirdEvent] && [ThirdEvent][1..] == [];
      assert map[1 := 5][1 := 5] == map[1 := 5];
      assert EventsApplied(Book(map[1 := 5], map[], 1, true), [ThirdEvent]).0 == Book(map[1 := 6], map[], 3, true) by {
        assert map[1 := 5][1 := 6] == map[1 := 6];
      }
    }
    ReconciledRun(f, 1);
    assert RunOf(LostEvent) == Next(f, Reconcile(1));
    LostDelivered();
    WrongLadder(RunOf(LostEvent).book, 3, map[1 := 6, 2 := 7]);
    LostEpisodes();
  }

  lemma OverlapDelivered()
    ensures forall i | 0 <= i < |OverlappingFetches| :: Delivered(ThreeChanges, OverlappingFetches[i])
  {
    hide Faithful, FaithfulSnapshot;
    MessagesAreFaithful();
  }

  lemma LostDelivered()
    ensures forall i | 0 <= i < |LostEvent| :: Delivered(ThreeChanges, LostEvent[i])
  {
    hide Faithful, FaithfulSnapshot;
    MessagesAreFaithful();
  }

  lemma WrongLadder(b: Book, n: nat, bids: Ladder)
    requires n <= 3 && LadderAt(ThreeChanges, n, Bid) == bids && (2 in b.bids <==> 2 !in bids)
    ensures !BookIs(ThreeChanges, b, n)
  {
  }

  lemma ReconciledRun(f: Feed, id: nat)
    requires HasBridge(f.sync.buffer, id)
    ensures var run, g := RunIn(f.sync.buffer, id), Next(f, Reconcile(id));
      && g.book == EventsApplied(f.book, run).0
      && g.sync.phase == Ready && g.sync.lastAppliedU == Some(run[|run| - 1].finalId)
  {
    hide UpdateApplied;
  }

  lemma LostEpisodes()
    ensures LostEvent
         == Steps([Opened, Heard(FirstEvent), Heard(ThirdEvent), Fetched([], [QuoteAt(1, 5)], [], 1, [], false)])
  {
    var a, b, c := Opened, Heard(FirstEvent), Heard(ThirdEvent);
    var d := Fetched([], [QuoteAt(1, 5)], [], 1, [], false);
    assert [a, b, c, d][..3] == [a, b, c] && [a, b, c][..2] == [a, b] && [a, b][..1] == [a] && [a][..0] == [];
    assert Steps([a]) == [Connect];
    assert Steps([a, b]) == [Connect, Depth(FirstEvent)];
    assert Steps([a, b, c]) == [Connect, Depth(FirstEvent), Depth(ThirdEvent)];
    assert DepthsOf([]) == [];
    assert StepsOf(d) == [SnapshotRequested, SnapshotReceived([QuoteAt(1, 5)], [], 1), Reconcile(1)];
  }
}
