/** The analytics engine live and in replay: the event streams that the two drivers send
    (src/main.rs, src/replay/engine.rs), and what the engine makes of them. */
module LiveAnalytics {
  import opened DepthFeed
  import opened EngineTwins
  import opened HeatmapAlike
  import opened LiveSession
  import opened Options
  import opened OrderBooks
  import opened Replay
  import opened ReplayOutcome
  import opened ReplaySimulation
  import opened Rows
  import opened Synchronization
  import opened Trades
  import opened Wire
  import E = Engine
  import H = Heatmaps

  /** The listing that seeds the shadow book. */
  function Seeding(b: Book, id: nat): E.MarketEvent {
    E.MarketEvent.BookSnapshot(id, Reversed(Listing(b.bids)), Listing(b.asks))
  }

  function Changed(e: DepthUpdate): E.MarketEvent {
    E.BookUpdated(e.finalId, e.eventTime, LenientLevels(e.bids), LenientLevels(e.asks))
  }

  predicate Reconciles(f: Feed, id: nat) {
    Reconciled(f.sync.(phase := SnapshotLoading), id).1.Some?
  }

  /** Live: a mismatch announces a resynchronization; only a reconciled snapshot seeds the shadow book, and
      then readiness is announced by the first fetch, the end of the resynchronization by a later one. */
  function LiveMarket(s: LiveState, input: Input, first: bool): seq<E.MarketEvent> {
    match input
    case DepthIn(e) => LiveDepthMarket(DepthStep(s.feed, e), e)
    case SnapshotIn(id, bids, asks) =>
      var (after, _) := SnapshotStep(s.feed, bids, asks, id);
      if SnapshotApplied(s.feed.book, bids, asks, id).1 && Reconciles(s.feed, id)
      then [Seeding(after.book, after.book.lastUpdateId), if first then E.Synchronized else E.ResyncCompleted] else []
    case TradeIn(t) => if Taken(s.intake, t, DUPLICATE_WINDOW).1 == Processed then [E.TradeEvent(t)] else []
    case RejectedIn(_) => []
  }

  function LiveDepthMarket(step: (Feed, LiveResult, bool), e: DepthUpdate): seq<E.MarketEvent> {
    if step.1 == Apply && step.2 then [Changed(e)] else if step.1 == PuMismatch then [E.ResyncStarted] else []
  }

  /** Replay: every snapshot seeds the shadow book, and resynchronizations are not announced. */
  function ReplayMarket(r: ReplayState, ev: ReplayEvent): seq<E.MarketEvent> {
    match ev
    case SnapshotEvent(_, id, bids, asks) =>
      var (after, ok) := SnapshotStep(r.feed, bids, asks, id);
      if ok then [Seeding(after.book, id)] else []
    case DepthEvent(_, e) =>
      var step := DepthStep(r.feed, e);
      if step.1 == Apply && step.2 then [Changed(e)] else []
    case TradeEvent(_, t) => if Taken(r.intake, t, DUPLICATE_WINDOW).1 == Processed then [E.TradeEvent(t)] else []
  }

  /** The stream of a live run; `first` tells which snapshots the first fetch brought. */
  function LiveStream(inputs: seq<Input>, first: Input -> bool): seq<E.MarketEvent> {
    if inputs == [] then []
    else
      var before, input := inputs[..|inputs| - 1], inputs[|inputs| - 1];
      LiveStream(before, first) + LiveMarket(LiveRun(before), input, first(input))
  }

  /** The stream of a replay, up to where it gives up. */
  function ReplayStream(events: seq<ReplayEvent>): seq<E.MarketEvent> {
    if events == [] then []
    else
      var before, r := events[..|events| - 1], ReplayAll(ReplayStart, events[..|events| - 1]);
      ReplayStream(before) + if r.Some? then ReplayMarket(r.value, events[|events| - 1]) else []
  }

  function Fed(s: E.EngineState, events: seq<E.MarketEvent>, cfg: E.EngineConfig): E.EngineState
    requires E.ValidConfig(cfg)
    decreases |events|
  {
    if events == [] then s else Fed(E.Processed(s, events[0], cfg), events[1..], cfg)
  }

  function Snapshots(s: E.EngineState, events: seq<E.MarketEvent>, cfg: E.EngineConfig): seq<E.MarketSnapshot>
    requires E.ValidConfig(cfg)
    decreases |events|
  {
    if events == [] then []
    else E.Finalized(s, events[0], cfg) + Snapshots(E.Processed(s, events[0], cfg), events[1..], cfg)
  }

  lemma {:induction false} FedConcat(s: E.EngineState, a: seq<E.MarketEvent>, b: seq<E.MarketEvent>,
                                     cfg: E.EngineConfig)
    requires E.ValidConfig(cfg)
    ensures Fed(s, a + b, cfg) == Fed(Fed(s, a, cfg), b, cfg)
    ensures Snapshots(s, a + b, cfg) == Snapshots(s, a, cfg) + Snapshots(Fed(s, a, cfg), b, cfg)
    decreases |a|
  {
    hide E.Processed, E.Finalized;
    if a == [] {
      assert a + b == b;
    } else {
      assert (a + b)[1..] == a[1..] + b;
      FedConcat(E.Processed(s, a[0], cfg), a[1..], b, cfg);
    }
  }

  lemma FedOne(s: E.EngineState, x: E.MarketEvent, cfg: E.EngineConfig)
    requires E.ValidConfig(cfg)
    ensures Fed(s, [x], cfg) == E.Processed(s, x, cfg) && Snapshots(s, [x], cfg) == E.Finalized(s, x, cfg)
  {
    hide E.Processed, E.Finalized;
    assert [x][1..] == [];
  }

  lemma FedTwo(s: E.EngineState, x: E.MarketEvent, y: E.MarketEvent, cfg: E.EngineConfig)
    requires E.ValidConfig(cfg)
    ensures Fed(s, [x, y], cfg) == E.Processed(E.Processed(s, x, cfg), y, cfg)
    ensures Snapshots(s, [x, y], cfg) == E.Finalized(s, x, cfg) + E.Finalized(E.Processed(s, x, cfg), y, cfg)
  {
    hide E.Processed, E.Finalized;
    assert [x, y][1..] == [y];
    FedOne(E.Processed(s, x, cfg), y, cfg);
  }

  /** The engines of a live run and of its replay: common always, with the same book while the synchronizer
      is ready. */
  ghost predicate Twins(live: LiveState, l: E.EngineState, r: E.EngineState, cfg: E.EngineConfig) {
    && Common(l, r) && Settled(l, cfg) && Settled(r, cfg)
    && (live.feed.sync.phase == Ready ==> SameBook(l, r))
  }

  /** What the log entry of an input makes the replay send. */
  function Echo(live: LiveState, replay: ReplayState, input: Input): seq<E.MarketEvent> {
    if LogOf(live, input) == [] then [] else ReplayMarket(replay, LogOf(live, input)[0])
  }

  lemma LenientReprint(quotes: seq<Quote>)
    requires OnGrid(quotes)
    ensures LenientLevels(Decoded(Encoded(quotes))) == LenientLevels(quotes)
  {
    hide Encoded, OnGrid;
    ReprintKeepsLevels(quotes);
    var again := Decoded(Encoded(quotes));
    forall i | 0 <= i < |quotes| ensures LenientLevel(again[i]) == LenientLevel(quotes[i]) {
      assert LevelsOf(again)[i] == LevelsOf(quotes)[i];
    }
  }

  lemma ReprintSends(e: DepthUpdate)
    requires GridEvent(e)
    ensures Changed(Reprinted(e)) == Changed(e)
  {
    hide LenientLevels;
    LenientReprint(e.bids);
    LenientReprint(e.asks);
  }

  /** A depth event is sent alike by both drivers, but for the announcement of a mismatch. */
  lemma DepthEcho(live: LiveState, replay: ReplayState, e: DepthUpdate)
    requires Follows(live, replay) && GridEvent(e) && LeavesRows(e)
    ensures var step := DepthStep(live.feed, e);
      && Echo(live, replay, DepthIn(e)) == (if step.1 == Apply && step.2 then [Changed(e)] else [])
      && (step.1 == Apply ==> live.feed.sync.phase == Ready && step.2)
      && (step.1 == PuMismatch ==> step.0.sync.phase != Ready)
      && (step.0.sync.phase == Ready ==> live.feed.sync.phase == Ready)
  {
    DepthStepReprints(live.feed, e);
    DepthStepAccepted(live.feed, e);
    ReprintSends(e);
    hide UpdateApplied, Reprinted, LeavesRows, GridEvent, Changed;
  }

  lemma SnapshotEcho(live: LiveState, replay: ReplayState, id: nat, bids: seq<Quote>, asks: seq<Quote>)
    requires Follows(live, replay) && OnGrid(bids) && OnGrid(asks)
    ensures var after := SnapshotStep(live.feed, bids, asks, id).0;
      && Echo(live, replay, SnapshotIn(id, bids, asks)) == [Seeding(after.book, id)]
      && SnapshotApplied(live.feed.book, bids, asks, id).1
      && (after.sync.phase == Ready <==> Reconciles(live.feed, id))
  {
    SnapshotStepReprints(live.feed, bids, asks, id);
    SnapshotAppliedReprints(live.feed.book, bids, asks, id);
    SnapshotPhase(live.feed, bids, asks, id);
    hide SnapshotStep, SnapshotApplied, Encoded, Seeding, Reconciled;
  }

  lemma SnapshotPhase(f: Feed, bids: seq<Quote>, asks: seq<Quote>, id: nat)
    requires SnapshotApplied(f.book, bids, asks, id).1
    ensures SnapshotStep(f, bids, asks, id).0.sync.phase == Ready <==> Reconciles(f, id)
  {
    hide SnapshotApplied, EventsApplied, StaleCount, BridgeIndex, Run;
  }

  lemma TradeEcho(live: LiveState, replay: ReplayState, t: Trade)
    requires Follows(live, replay)
    ensures Echo(live, replay, TradeIn(t)) == LiveMarket(live, TradeIn(t), false)
  {
  }

  lemma NothingSent(s: E.EngineState, cfg: E.EngineConfig)
    requires E.ValidConfig(cfg)
    ensures Fed(s, [], cfg) == s && Snapshots(s, [], cfg) == []
  {
  }

  /** The same timed event in both streams. */
  lemma BothTimed(l: E.EngineState, r: E.EngineState, x: E.MarketEvent, cfg: E.EngineConfig)
    requires E.ValidConfig(cfg) && Common(l, r) && (x.TradeEvent? || (x.BookUpdated? && SameBook(l, r)))
    ensures Common(Fed(l, [x], cfg), Fed(r, [x], cfg))
    ensures Settled(Fed(l, [x], cfg), cfg) && Settled(Fed(r, [x], cfg), cfg)
    ensures SameSnapshots(Snapshots(l, [x], cfg), Snapshots(r, [x], cfg))
    ensures SameBook(l, r) ==> SameBook(Fed(l, [x], cfg), Fed(r, [x], cfg))
  {
    hide Common, E.Processed, E.Finalized, SameSnapshots, Settled, E.TradeTaken, E.BookChanged, SameBook;
    FedOne(l, x, cfg);
    FedOne(r, x, cfg);
    ProcessedSettled(l, x, cfg);
    ProcessedSettled(r, x, cfg);
    if x.TradeEvent? {
      TradeCommon(l, r, x.trade, cfg);
    } else {
      UpdateCommon(l, r, x.id, x.time, x.bids, x.asks, cfg);
    }
    CommonSettles(l, r, x, cfg);
  }

  /** An event about the book alone, in one stream only. */
  lemma OneBookEvent(s: E.EngineState, x: E.MarketEvent, cfg: E.EngineConfig)
    requires E.ValidConfig(cfg) && Settled(s, cfg)
    requires x.Synchronized? || x.BookSnapshot? || x.ResyncStarted? || x.ResyncCompleted?
    ensures Common(Fed(s, [x], cfg), s) && Settled(Fed(s, [x], cfg), cfg) && Snapshots(s, [x], cfg) == []
  {
    hide Common, E.Processed, E.Finalized, Settled;
    FedOne(s, x, cfg);
    BookEventCommon(s, x, cfg);
    ProcessedSettled(s, x, cfg);
  }

  lemma CommonSides(a: E.EngineState, b: E.EngineState, c: E.EngineState, d: E.EngineState)
    requires Common(a, b) && Common(b, c) && Common(d, c)
    ensures Common(a, d)
  {
    CommonChain(a, b, c, d);
  }

  lemma CommonSelf(s: E.EngineState)
    ensures Common(s, s)
  {
    hide Alike;
    AlikeSelf(s.grid);
  }

  /** A reconciled snapshot: the live stream announces it, the replay stream has another update id. */
  lemma BothSeeded(l: E.EngineState, r: E.EngineState, b: Book, m: nat, n: nat, done: E.MarketEvent,
                   cfg: E.EngineConfig)
    requires E.ValidConfig(cfg) && Common(l, r) && Settled(l, cfg) && Settled(r, cfg)
    requires done == E.Synchronized || done == E.ResyncCompleted
    ensures var l', r' := Fed(l, [Seeding(b, m), done], cfg), Fed(r, [Seeding(b, n)], cfg);
      && l' == E.Processed(l, Seeding(b, m), cfg) && r' == E.Processed(r, Seeding(b, n), cfg)
      && Common(l', r') && SameBook(l', r') && Settled(l', cfg) && Settled(r', cfg)
    ensures Snapshots(l, [Seeding(b, m), done], cfg) == [] && Snapshots(r, [Seeding(b, n)], cfg) == []
  {
    hide Common, E.Processed, E.Finalized, Settled;
    FedTwo(l, Seeding(b, m), done, cfg);
    OneBookEvent(l, Seeding(b, m), cfg);
    OneBookEvent(r, Seeding(b, n), cfg);
    FedOne(l, Seeding(b, m), cfg);
    FedOne(r, Seeding(b, n), cfg);
    SeedSame(l, r, m, n, Reversed(Listing(b.bids)), Listing(b.asks), cfg);
    AnnouncementIdle(Fed(l, [Seeding(b, m)], cfg), done, cfg);
    CommonSides(Fed(l, [Seeding(b, m)], cfg), l, r, Fed(r, [Seeding(b, n)], cfg));
  }

  /** Every input keeps the engines twins, with corresponding snapshots. */
  lemma InputTwins(live: LiveState, replay: ReplayState, l: E.EngineState, r: E.EngineState, input: Input, first: bool,
                   cfg: E.EngineConfig)
    requires E.ValidConfig(cfg) && Follows(live, replay) && Gridded(input) && LeavesTrace(input)
    requires Twins(live, l, r, cfg)
    ensures Twins(LiveNext(live, input), Fed(l, LiveMarket(live, input, first), cfg),
                  Fed(r, Echo(live, replay, input), cfg), cfg)
    ensures SameSnapshots(Snapshots(l, LiveMarket(live, input, first), cfg),
                          Snapshots(r, Echo(live, replay, input), cfg))
  {
    hide Common, Settled, Fed, Snapshots, DepthStep, SnapshotStep, SnapshotApplied, Seeding, Changed, Follows, Taken;
    hide RowsOf;
    hide SameBook, LogOf, LeavesRows, Reconciled, OnGrid, GridEvent;
    NothingSent(l, cfg);
    NothingSent(r, cfg);
    match input {
      case DepthIn(e) =>
        DepthEcho(live, replay, e);
        var step := DepthStep(live.feed, e);
        if step.1 == Apply {
          BothTimed(l, r, Changed(e), cfg) by { ChangedIsUpdate(e); }
        } else if step.1 == PuMismatch {
          OneBookEvent(l, E.ResyncStarted, cfg);
          CommonSelf(r);
          CommonSides(Fed(l, [E.ResyncStarted], cfg), l, r, r);
        }
      case SnapshotIn(id, bids, asks) =>
        SnapshotEcho(live, replay, id, bids, asks);
        var after := SnapshotStep(live.feed, bids, asks, id).0;
        if Reconciles(live.feed, id) {
          var done := if first then E.Synchronized else E.ResyncCompleted;
          BothSeeded(l, r, after.book, after.book.lastUpdateId, id, done, cfg);
        } else {
          OneBookEvent(r, Seeding(after.book, id), cfg) by { SeedingIsSnapshot(after.book, id); }
          CommonSelf(l);
          CommonSides(l, l, r, Fed(r, [Seeding(after.book, id)], cfg));
        }
        SnapshotNextFeed(live, id, bids, asks);
      case TradeIn(t) =>
        TradeEcho(live, replay, t);
        if Taken(live.intake, t, DUPLICATE_WINDOW).1 == Processed { BothTimed(l, r, E.TradeEvent(t), cfg); }
      case RejectedIn(_) =>
        assert Echo(live, replay, input) == [] by { RejectedLog(live, input); }
    }
  }

  lemma ChangedIsUpdate(e: DepthUpdate)
    ensures Changed(e).BookUpdated?
  {
  }

  lemma SeedingIsSnapshot(b: Book, id: nat)
    ensures Seeding(b, id).BookSnapshot?
  {
  }

  lemma SnapshotNextFeed(live: LiveState, id: nat, bids: seq<Quote>, asks: seq<Quote>)
    ensures LiveNext(live, SnapshotIn(id, bids, asks)).feed == SnapshotStep(live.feed, bids, asks, id).0
  {
    hide SnapshotStep, SnapshotApplied, Encoded;
  }

  lemma ReplayStreamAppends(events: seq<ReplayEvent>, more: seq<ReplayEvent>)
    requires |more| <= 1 && ReplayAll(ReplayStart, events).Some?
    ensures ReplayStream(events + more)
         == ReplayStream(events)
            + if more == [] then [] else ReplayMarket(ReplayAll(ReplayStart, events).value, more[0])
  {
    hide ReplayMarket, ReplayAll;
    if more == [] {
      assert events + more == events;
    } else {
      assert (events + more)[..|events + more| - 1] == events && (events + more)[|events|] == more[0];
    }
  }

  lemma LogOfIsShort(live: LiveState, input: Input)
    ensures |LogOf(live, input)| <= 1
  {
    hide SnapshotApplied, Taken, LeavesRows, Encoded, Reprinted;
  }

  lemma SnapshotsJoin(a: seq<E.MarketSnapshot>, b: seq<E.MarketSnapshot>, c: seq<E.MarketSnapshot>,
                      d: seq<E.MarketSnapshot>)
    requires SameSnapshots(a, b) && SameSnapshots(c, d)
    ensures SameSnapshots(a + c, b + d)
  {
  }

  /** Both engines after a run, and their snapshots. */
  function LiveEngine(inputs: seq<Input>, first: Input -> bool, cfg: E.EngineConfig): E.EngineState
    requires E.ValidConfig(cfg)
  {
    Fed(E.FreshEngine, LiveStream(inputs, first), cfg)
  }

  function ReplayEngine(events: seq<ReplayEvent>, cfg: E.EngineConfig): E.EngineState
    requires E.ValidConfig(cfg)
  {
    Fed(E.FreshEngine, ReplayStream(events), cfg)
  }

  lemma StartTwins(cfg: E.EngineConfig)
    requires E.ValidConfig(cfg)
    ensures Twins(LiveStart, E.FreshEngine, E.FreshEngine, cfg)
  {
    AlikeSelf(map[]);
  }

  /** One more input, in terms of the two streams. */
  lemma StreamsGrow(inputs: seq<Input>, first: Input -> bool, cfg: E.EngineConfig)
    requires inputs != [] && E.ValidConfig(cfg) && AllGridded(inputs) && AllLeaveTrace(inputs)
    ensures var before, input := inputs[..|inputs| - 1], inputs[|inputs| - 1];
      var live, replay := LiveRun(before), ReplayAll(ReplayStart, Log(before));
      && replay.Some? && Follows(live, replay.value) && Gridded(input) && LeavesTrace(input)
      && LiveEngine(inputs, first, cfg)
         == Fed(LiveEngine(before, first, cfg), LiveMarket(live, input, first(input)), cfg)
      && ReplayEngine(Log(inputs), cfg) == Fed(ReplayEngine(Log(before), cfg), Echo(live, replay.value, input), cfg)
      && Snapshots(E.FreshEngine, LiveStream(inputs, first), cfg)
         == Snapshots(E.FreshEngine, LiveStream(before, first), cfg)
            + Snapshots(LiveEngine(before, first, cfg), LiveMarket(live, input, first(input)), cfg)
      && Snapshots(E.FreshEngine, ReplayStream(Log(inputs)), cfg)
         == Snapshots(E.FreshEngine, ReplayStream(Log(before)), cfg)
            + Snapshots(ReplayEngine(Log(before), cfg), Echo(live, replay.value, input), cfg)
  {
    hide Gridded, LeavesTrace, Follows, LogOf, LiveMarket, ReplayMarket, Fed, Snapshots, ReplayAll, LiveNext;
    var before, input := inputs[..|inputs| - 1], inputs[|inputs| - 1];
    assert Gridded(input) && LeavesTrace(input);
    LogFollowed(before);
    var live := LiveRun(before);
    LogOfIsShort(live, input);
    ReplayStreamAppends(Log(before), LogOf(live, input));
    FedConcat(E.FreshEngine, LiveStream(before, first), LiveMarket(live, input, first(input)), cfg);
    var replay := ReplayAll(ReplayStart, Log(before)).value;
    FedConcat(E.FreshEngine, ReplayStream(Log(before)), Echo(live, replay, input), cfg);
  }

  lemma {:induction false} RunTwins(inputs: seq<Input>, first: Input -> bool, cfg: E.EngineConfig)
    requires E.ValidConfig(cfg) && AllGridded(inputs) && AllLeaveTrace(inputs)
    ensures Twins(LiveRun(inputs), LiveEngine(inputs, first, cfg), ReplayEngine(Log(inputs), cfg), cfg)
    ensures SameSnapshots(Snapshots(E.FreshEngine, LiveStream(inputs, first), cfg),
                          Snapshots(E.FreshEngine, ReplayStream(Log(inputs)), cfg))
  {
    hide Twins, Gridded, LeavesTrace, Follows, LiveMarket, Echo, Fed, Snapshots, ReplayAll, LiveEngine, ReplayEngine;
    hide SameSnapshots, LiveNext, LogOf, ReplayMarket;
    if inputs == [] {
      EmptyStreams(first, cfg);
    } else {
      var before, input := inputs[..|inputs| - 1], inputs[|inputs| - 1];
      RunTwins(before, first, cfg);
      StreamsGrow(inputs, first, cfg);
      var live, replay := LiveRun(before), ReplayAll(ReplayStart, Log(before)).value;
      var l, r := LiveEngine(before, first, cfg), ReplayEngine(Log(before), cfg);
      InputTwins(live, replay, l, r, input, first(input), cfg);
      SnapshotsJoin(Snapshots(E.FreshEngine, LiveStream(before, first), cfg),
                    Snapshots(E.FreshEngine, ReplayStream(Log(before)), cfg),
                    Snapshots(l, LiveMarket(live, input, first(input)), cfg),
                    Snapshots(r, Echo(live, replay, input), cfg));
    }
  }

  lemma EmptyStreams(first: Input -> bool, cfg: E.EngineConfig)
    requires E.ValidConfig(cfg)
    ensures Twins(LiveRun([]), LiveEngine([], first, cfg), ReplayEngine(Log([]), cfg), cfg)
    ensures SameSnapshots(Snapshots(E.FreshEngine, LiveStream([], first), cfg),
                          Snapshots(E.FreshEngine, ReplayStream(Log([])), cfg))
  {
    StartTwins(cfg);
  }

  /** Live and replayed analytics of every run, mismatches and failed reconciliations included: the session
      totals, the profile, all time buckets, clusters, detector counts, replenishments, the trade side of every
      snapshot and every heatmap total but cell and absorption counts are always equal; while the synchronizer
      is ready so are the displayed book and all level records. */
  lemma AnalyticsAgree(inputs: seq<Input>, first: Input -> bool, cfg: E.EngineConfig)
    requires E.ValidConfig(cfg) && AllGridded(inputs) && AllLeaveTrace(inputs)
    ensures var live := LiveRun(inputs);
      var events := Session(live.snapshotRows, live.levelRows, live.tradeRows);
      var l, r := LiveEngine(inputs, first, cfg), ReplayEngine(events, cfg);
      && TradeSideOf(l) == TradeSideOf(r)
      && (forall m | Shared(m) :: H.Total(l.grid, m) == H.Total(r.grid, m))
      && (live.feed.sync.phase == Ready ==> SameBook(l, r))
      && SameSnapshots(Snapshots(E.FreshEngine, LiveStream(inputs, first), cfg),
                       Snapshots(E.FreshEngine, ReplayStream(events), cfg))
  {
    hide Session, Fed, Snapshots, LiveStream, ReplayStream, SameBook, SameSnapshots, LiveRun, Twins, LiveEngine;
    hide ReplayEngine, TradeSideOf, H.Total, Shared;
    LoadingRestoresLog(inputs);
    RunTwins(inputs, first, cfg);
    TwinsMean(LiveRun(inputs), LiveEngine(inputs, first, cfg), ReplayEngine(Log(inputs), cfg), cfg);
  }

  lemma TwinsMean(live: LiveState, l: E.EngineState, r: E.EngineState, cfg: E.EngineConfig)
    requires Twins(live, l, r, cfg)
    ensures TradeSideOf(l) == TradeSideOf(r) && (live.feed.sync.phase == Ready ==> SameBook(l, r))
    ensures forall m | Shared(m) :: H.Total(l.grid, m) == H.Total(r.grid, m)
  {
    hide Settled, Alike, H.Total, SameBook;
    forall m | Shared(m) ensures H.Total(l.grid, m) == H.Total(r.grid, m) {
      AlikeTotals(l.grid, r.grid, m);
    }
  }

  /** An input without a mismatch, and without a snapshot that does not reconcile. */
  predicate Smooth(s: LiveState, input: Input) {
    match input
    case DepthIn(e) => DepthStep(s.feed, e).1 != PuMismatch
    case SnapshotIn(id, _, _) => Reconciles(s.feed, id)
    case _ => true
  }

  predicate AllSmooth(inputs: seq<Input>) {
    inputs == []
    || (AllSmooth(inputs[..|inputs| - 1]) && Smooth(LiveRun(inputs[..|inputs| - 1]), inputs[|inputs| - 1]))
  }

  /** Equal in everything but the update id that the shadow book remembers. */
  predicate AgreeFully(l: E.EngineState, r: E.EngineState) {
    l == WithId(r, l.shadow.lastUpdateId)
  }

  lemma SmoothInput(live: LiveState, replay: ReplayState, l: E.EngineState, r: E.EngineState, input: Input, first: bool,
                    cfg: E.EngineConfig)
    requires E.ValidConfig(cfg) && Follows(live, replay) && Gridded(input) && LeavesTrace(input) && Smooth(live, input)
    requires Twins(live, l, r, cfg) && AgreeFully(l, r)
    ensures AgreeFully(Fed(l, LiveMarket(live, input, first), cfg), Fed(r, Echo(live, replay, input), cfg))
    ensures Snapshots(l, LiveMarket(live, input, first), cfg) == Snapshots(r, Echo(live, replay, input), cfg)
  {
    hide Common, Settled, Fed, Snapshots, DepthStep, SnapshotStep, SnapshotApplied, Seeding, Changed, Follows, Taken;
    hide RowsOf;
    hide SameBook, LogOf, LeavesRows, Reconciled, OnGrid, GridEvent, E.Processed, E.Finalized;
    NothingSent(l, cfg);
    NothingSent(r, cfg);
    var id := l.shadow.lastUpdateId;
    match input {
      case DepthIn(e) =>
        DepthEcho(live, replay, e);
        if DepthStep(live.feed, e).1 == Apply {
          ChangedIsUpdate(e);
          FedOne(l, Changed(e), cfg);
          FedOne(r, Changed(e), cfg);
          TimedIgnoresId(r, Changed(e), id, cfg);
          SameWithId(E.Processed(r, Changed(e), cfg));
        }
      case SnapshotIn(n, bids, asks) =>
        SnapshotEcho(live, replay, n, bids, asks);
        var b := SnapshotStep(live.feed, bids, asks, n).0.book;
        BothSeeded(l, r, b, b.lastUpdateId, n, if first then E.Synchronized else E.ResyncCompleted, cfg);
        SeedingAgrees(r, b, b.lastUpdateId, n, id, cfg);
      case TradeIn(t) =>
        TradeEcho(live, replay, t);
        if Taken(live.intake, t, DUPLICATE_WINDOW).1 == Processed {
          FedOne(l, E.TradeEvent(t), cfg);
          FedOne(r, E.TradeEvent(t), cfg);
          TimedIgnoresId(r, E.TradeEvent(t), id, cfg);
        }
      case RejectedIn(_) =>
        assert Echo(live, replay, input) == [] by { RejectedLog(live, input); }
    }
  }

  lemma SameWithId(s: E.EngineState)
    ensures s == WithId(s, s.shadow.lastUpdateId)
  {
  }

  lemma SeedingAgrees(r: E.EngineState, b: Book, m: nat, n: nat, id: Option<nat>, cfg: E.EngineConfig)
    requires E.ValidConfig(cfg)
    ensures E.Processed(WithId(r, id), Seeding(b, m), cfg) == WithId(E.Processed(r, Seeding(b, n), cfg), Some(m))
  {
    hide E.Processed, WithId;
    SeedIgnoresId(r, m, n, Reversed(Listing(b.bids)), Listing(b.asks), id, cfg);
  }

  lemma {:induction false} SmoothRunsAgree(inputs: seq<Input>, first: Input -> bool, cfg: E.EngineConfig)
    requires E.ValidConfig(cfg) && AllGridded(inputs) && AllLeaveTrace(inputs) && AllSmooth(inputs)
    ensures AgreeFully(LiveEngine(inputs, first, cfg), ReplayEngine(Log(inputs), cfg))
    ensures Snapshots(E.FreshEngine, LiveStream(inputs, first), cfg)
         == Snapshots(E.FreshEngine, ReplayStream(Log(inputs)), cfg)
  {
    hide Twins, Gridded, LeavesTrace, Follows, LiveMarket, Echo, Fed, Snapshots, ReplayAll, LiveEngine, ReplayEngine;
    hide Smooth, AgreeFully, LiveNext, LogOf, ReplayMarket;
    if inputs == [] {
      EmptyAgree(first, cfg);
    } else {
      var before, input := inputs[..|inputs| - 1], inputs[|inputs| - 1];
      SmoothRunsAgree(before, first, cfg);
      RunTwins(before, first, cfg);
      StreamsGrow(inputs, first, cfg);
      SmoothInput(LiveRun(before), ReplayAll(ReplayStart, Log(before)).value, LiveEngine(before, first, cfg),
                  ReplayEngine(Log(before), cfg), input, first(input), cfg);
    }
  }

  lemma EmptyAgree(first: Input -> bool, cfg: E.EngineConfig)
    requires E.ValidConfig(cfg)
    ensures AgreeFully(LiveEngine([], first, cfg), ReplayEngine(Log([]), cfg))
    ensures Snapshots(E.FreshEngine, LiveStream([], first), cfg) == Snapshots(E.FreshEngine, ReplayStream(Log([])), cfg)
  {
  }

  /** No snapshot arrives while the synchronizer is ready, as only overlapping fetches make it. */
  predicate FetchesApart(inputs: seq<Input>) {
    inputs == []
    || (FetchesApart(inputs[..|inputs| - 1])
        && (inputs[|inputs| - 1].SnapshotIn? ==> LiveRun(inputs[..|inputs| - 1]).feed.sync.phase != Ready))
  }

  /** The engines agree after every prefix. */
  predicate AgreeThroughout(inputs: seq<Input>, first: Input -> bool, cfg: E.EngineConfig)
    requires E.ValidConfig(cfg)
  {
    && AgreeFully(LiveEngine(inputs, first, cfg), ReplayEngine(Log(inputs), cfg))
    && (inputs == [] || AgreeThroughout(inputs[..|inputs| - 1], first, cfg))
  }

  lemma ReadinessAfter(s: E.EngineState, x: E.MarketEvent, cfg: E.EngineConfig)
    requires E.ValidConfig(cfg) && (x.TradeEvent? || x.ResyncStarted? || x.BookSnapshot?)
    ensures E.Processed(s, x, cfg).shadow.ready == (x.BookSnapshot? || (x.TradeEvent? && s.shadow.ready))
  {
    hide E.TradeTaken, E.BookSeeded, H.From, Liquidity.Pruned, E.SnapshotAt, E.Due;
    match x {
      case TradeEvent(t) => TradeKeepsShadow(s, t, cfg);
      case BookSnapshot(id, bids, asks) => SeedShape(s, id, bids, asks);
      case ResyncStarted =>
    }
  }

  lemma TradeKeepsShadow(s: E.EngineState, t: Trade, cfg: E.EngineConfig)
    requires E.ValidConfig(cfg)
    ensures E.TradeTaken(s, t, cfg).shadow == s.shadow
  {
    hide E.Clustered, E.LargeChecked, E.FlowTaken, E.AbsorptionChecked;
    ClusteredBook(s, t, cfg);
    AbsorptionCommon(E.Clustered(E.LargeChecked(E.FlowTaken(s, t, cfg), t, cfg), t, cfg), t, cfg);
  }

  /** A run that was smooth so far and is not ready yet has never had a book in the live engine. */
  lemma {:induction false} SmoothWaits(inputs: seq<Input>, first: Input -> bool, cfg: E.EngineConfig)
    requires E.ValidConfig(cfg) && AllGridded(inputs) && AllLeaveTrace(inputs) && AllSmooth(inputs)
    ensures LiveRun(inputs).feed.sync.phase != Ready ==> !LiveEngine(inputs, first, cfg).shadow.ready
  {
    hide Gridded, LeavesTrace, Follows, LiveMarket, Echo, Fed, Snapshots, ReplayAll, LiveEngine, ReplayEngine;
    hide Smooth, LiveNext, LogOf, ReplayMarket;
    if inputs == [] {
      EmptyWaits(first, cfg);
    } else {
      var before, input := inputs[..|inputs| - 1], inputs[|inputs| - 1];
      SmoothWaits(before, first, cfg);
      StreamsGrow(inputs, first, cfg);
      InputWaits(LiveRun(before), ReplayAll(ReplayStart, Log(before)).value, LiveEngine(before, first, cfg), input,
                 first(input), cfg);
    }
  }

  lemma EmptyWaits(first: Input -> bool, cfg: E.EngineConfig)
    requires E.ValidConfig(cfg)
    ensures !LiveEngine([], first, cfg).shadow.ready
  {
  }

  lemma InputWaits(live: LiveState, replay: ReplayState, l: E.EngineState, input: Input, first: bool,
                   cfg: E.EngineConfig)
    requires E.ValidConfig(cfg) && Follows(live, replay) && Gridded(input) && LeavesTrace(input) && Smooth(live, input)
    requires live.feed.sync.phase != Ready ==> !l.shadow.ready
    ensures LiveNext(live, input).feed.sync.phase != Ready
        ==> !Fed(l, LiveMarket(live, input, first), cfg).shadow.ready
  {
    hide Fed, Snapshots, DepthStep, SnapshotStep, SnapshotApplied, Seeding, Changed, Follows, Taken, RowsOf;
    hide LogOf, LeavesRows, Reconciled, OnGrid, GridEvent, E.Processed, E.Finalized;
    NothingSent(l, cfg);
    match input {
      case DepthIn(e) =>
        DepthEcho(live, replay, e);
        DepthKeepsPhase(live.feed, e);
      case SnapshotIn(id, bids, asks) =>
        SnapshotEcho(live, replay, id, bids, asks);
        SnapshotNextFeed(live, id, bids, asks);
      case TradeIn(t) =>
        if Taken(live.intake, t, DUPLICATE_WINDOW).1 == Processed {
          FedOne(l, E.TradeEvent(t), cfg);
          ReadinessAfter(l, E.TradeEvent(t), cfg);
        }
      case RejectedIn(_) =>
    }
  }

  lemma DepthKeepsPhase(f: Feed, e: DepthUpdate)
    requires DepthStep(f, e).1 != PuMismatch && (DepthStep(f, e).1 == Apply ==> DepthStep(f, e).2)
    ensures DepthStep(f, e).0.sync.phase == f.sync.phase
  {
    hide UpdateApplied;
  }

  /** What is not smooth separates the engines. */
  lemma RoughInput(live: LiveState, replay: ReplayState, l: E.EngineState, r: E.EngineState, input: Input, first: bool,
                   cfg: E.EngineConfig)
    requires E.ValidConfig(cfg) && Follows(live, replay) && Gridded(input) && LeavesTrace(input) && !Smooth(live, input)
    requires Twins(live, l, r, cfg) && (live.feed.sync.phase != Ready ==> !l.shadow.ready)
    requires input.SnapshotIn? ==> live.feed.sync.phase != Ready
    ensures !AgreeFully(Fed(l, LiveMarket(live, input, first), cfg), Fed(r, Echo(live, replay, input), cfg))
  {
    hide Common, Settled, Fed, Snapshots, DepthStep, SnapshotStep, SnapshotApplied, Seeding, Changed, Follows, Taken;
    hide RowsOf;
    hide LogOf, LeavesRows, Reconciled, OnGrid, GridEvent, E.Processed, E.Finalized;
    NothingSent(l, cfg);
    NothingSent(r, cfg);
    match input {
      case DepthIn(e) =>
        DepthEcho(live, replay, e);
        MismatchIsReady(live.feed, e);
        FedOne(l, E.ResyncStarted, cfg);
        ReadinessAfter(l, E.ResyncStarted, cfg);
      case SnapshotIn(id, bids, asks) =>
        SnapshotEcho(live, replay, id, bids, asks);
        var seed := Seeding(SnapshotStep(live.feed, bids, asks, id).0.book, id);
        SeedingIsSnapshot(SnapshotStep(live.feed, bids, asks, id).0.book, id);
        FedOne(r, seed, cfg);
        ReadinessAfter(r, seed, cfg);
      case _ =>
    }
  }

  lemma MismatchIsReady(f: Feed, e: DepthUpdate)
    requires DepthStep(f, e).1 == PuMismatch
    ensures f.sync.phase == Ready
  {
    hide UpdateApplied;
  }

  /** Unless fetches overlap, the whole state of the engine is the same live and in replay at every moment if
      and only if the run has neither a mismatch nor a snapshot that does not reconcile. */
  lemma {:induction false} SmoothIsExact(inputs: seq<Input>, first: Input -> bool, cfg: E.EngineConfig)
    requires E.ValidConfig(cfg) && AllGridded(inputs) && AllLeaveTrace(inputs) && FetchesApart(inputs)
    ensures AgreeThroughout(inputs, first, cfg) <==> AllSmooth(inputs)
  {
    hide Gridded, LeavesTrace, Follows, LiveMarket, Echo, Fed, Snapshots, ReplayAll, LiveEngine, ReplayEngine;
    hide Smooth, AgreeFully, Twins, LiveNext, LogOf, ReplayMarket;
    if inputs == [] {
      EmptyAgree(first, cfg);
    } else {
      var before, input := inputs[..|inputs| - 1], inputs[|inputs| - 1];
      SmoothIsExact(before, first, cfg);
      if AllSmooth(inputs) {
        SmoothRunsAgree(inputs, first, cfg);
      } else if AllSmooth(before) {
        RunTwins(before, first, cfg);
        StreamsGrow(inputs, first, cfg);
        SmoothWaits(before, first, cfg);
        RoughInput(LiveRun(before), ReplayAll(ReplayStart, Log(before)).value, LiveEngine(before, first, cfg),
                   ReplayEngine(Log(before), cfg), input, first(input), cfg);
      }
    }
  }

  /** Any snapshot that is the first thing to arrive: nothing bridges it, so the live engine waits, while the
      replayed engine shows it. */
  lemma FailedReconciliationSeparates(id: nat, bids: seq<Quote>, asks: seq<Quote>, first: Input -> bool,
                                      cfg: E.EngineConfig)
    requires E.ValidConfig(cfg) && OnGrid(bids) && OnGrid(asks)
    ensures var inputs := [SnapshotIn(id, bids, asks)];
      && AllGridded(inputs) && AllLeaveTrace(inputs) && FetchesApart(inputs) && !AllSmooth(inputs)
      && !LiveEngine(inputs, first, cfg).shadow.ready && ReplayEngine(Log(inputs), cfg).shadow.ready
      && !AgreeThroughout(inputs, first, cfg)
  {
    hide LiveEngine, ReplayEngine, OnGrid, SnapshotStep, SnapshotApplied, Fed, LogOf, AllGridded, AllLeaveTrace;
    hide LiveNext, Snapshots, Gridded, LeavesTrace, Follows;
    var input := SnapshotIn(id, bids, asks);
    var inputs := [input];
    assert inputs[..0] == [];
    NothingBridges(id);
    assert AllGridded(inputs) && AllLeaveTrace(inputs) by {
      OneInput(input);
      SnapshotIsGridded(id, bids, asks);
    }
    StreamsGrow(inputs, first, cfg);
    LogFollowed([]);
    SnapshotEcho(LiveStart, ReplayStart, id, bids, asks) by { StartFollows(); }
    var seed := Seeding(SnapshotStep(LiveStart.feed, bids, asks, id).0.book, id);
    SeedingIsSnapshot(SnapshotStep(LiveStart.feed, bids, asks, id).0.book, id);
    var l, r := LiveEngine([], first, cfg), ReplayEngine(Log([]), cfg);
    EmptyWaits(first, cfg);
    NothingSent(l, cfg);
    FedOne(r, seed, cfg);
    ReadinessAfter(r, seed, cfg);
  }

  lemma NothingBridges(id: nat)
    ensures LiveStart.feed.sync.phase != Ready && !Reconciles(LiveStart.feed, id)
  {
  }

  lemma SnapshotIsGridded(id: nat, bids: seq<Quote>, asks: seq<Quote>)
    requires OnGrid(bids) && OnGrid(asks)
    ensures Gridded(SnapshotIn(id, bids, asks)) && LeavesTrace(SnapshotIn(id, bids, asks))
  {
  }

  lemma StartFollows()
    ensures Follows(LiveStart, ReplayStart)
  {
  }
}
