/** Replaying a recorded session (src/replay/engine.rs) and loading it (src/replay/reader.rs). */
module Replay {
  import opened DepthFeed
  import opened Flow
  import opened Levels
  import opened Options
  import opened OrderBooks
  import opened Rows
  import opened Shadow
  import opened Sums
  import opened Synchronization
  import opened Trades
  import opened Wire

  datatype ReplayEvent =
    | SnapshotEvent(seqNo: nat, updateId: nat, bids: seq<Quote>, asks: seq<Quote>)
    | DepthEvent(seqNo: nat, update: DepthUpdate)
    | TradeEvent(seqNo: nat, trade: Trade)

  datatype Counters = Counters(
    depthEvents: nat,
    snapshotsApplied: nat,
    eventsApplied: nat,
    eventsIgnored: nat,
    sequenceErrors: nat,
    tradesProcessed: nat,
    tradesSkipped: nat)

  /** What a replay with analytics carries from event to event. */
  datatype ReplayState = ReplayState(
    feed: Feed,
    intake: Intake,
    shadow: ShadowState,
    totals: FlowTotals,
    counters: Counters)

  const ReplayStart := ReplayState(Feed(Connected(FreshSync), EmptyBook), EmptyIntake, EmptyShadow,
                                   FlowTotals(0, 0, 0, 0), Counters(0, 0, 0, 0, 0, 0, 0))

  /** The levels of a message for the analytics, where a number that does not parse counts as zero. */
  function LenientLevel(q: Quote): Level {
    Level(if q.price.Malformed? then 0 else ParseTicks(q.price).value,
          if q.quantity.Malformed? then 0 else ParseTicks(q.quantity).value)
  }

  function LenientLevels(quotes: seq<Quote>): (r: seq<Level>)
    ensures |r| == |quotes|
    ensures forall i | 0 <= i < |r| :: r[i] == LenientLevel(quotes[i])
  {
    seq(|quotes|, i requires 0 <= i < |quotes| => LenientLevel(quotes[i]))
  }

  /** The shadow book is seeded with the listing of the order book. */
  function Seeded(s: ShadowState, b: Book, id: nat): ShadowState {
    ShadowSnapshot(s, Reversed(Listing(b.bids)), Listing(b.asks), id)
  }

  function AfterSnapshot(s: ReplayState, id: nat, bids: seq<Quote>, asks: seq<Quote>): Option<ReplayState> {
    var (feed, ok) := SnapshotStep(s.feed, bids, asks, id);
    if !ok then None
    else
      Some(s.(feed := feed, shadow := Seeded(s.shadow, feed.book, id),
           counters := SnapshotCounted(s.counters, RunLength(s.feed.sync.(phase := SnapshotLoading), id))))
  }

  function SnapshotCounted(c: Counters, applied: Option<nat>): Counters {
    var counted := c.(snapshotsApplied := c.snapshotsApplied + 1);
    if applied.Some? then counted.(eventsApplied := c.eventsApplied + applied.value)
    else counted.(sequenceErrors := c.sequenceErrors + 1)
  }

  function DepthCounted(c: Counters, r: LiveResult): Counters {
    var counted := c.(depthEvents := c.depthEvents + 1);
    match r
    case Apply => counted.(eventsApplied := c.eventsApplied + 1)
    case Stale => counted.(eventsIgnored := c.eventsIgnored + 1)
    case Ignored => counted.(eventsIgnored := c.eventsIgnored + 1)
    case PuMismatch => counted.(sequenceErrors := c.sequenceErrors + 1)
    case Buffered => counted
  }

  function AfterDepth(s: ReplayState, e: DepthUpdate): Option<ReplayState> {
    var (feed, r, ok) := DepthStep(s.feed, e);
    if !ok then None
    else
      var next := s.(feed := feed, counters := DepthCounted(s.counters, r));
      Some(if r == Apply
           then next.(shadow := ShadowUpdate(s.shadow, LenientLevels(e.bids), LenientLevels(e.asks), e.finalId))
           else next)
  }

  function AfterTrade(s: ReplayState, t: Trade): ReplayState {
    var (intake, r) := Taken(s.intake, t, DUPLICATE_WINDOW);
    if r == Processed then
      s.(intake := intake, totals := TotalsAfter(s.totals, t),
      counters := s.counters.(tradesProcessed := s.counters.tradesProcessed + 1))
    else s.(intake := intake, counters := s.counters.(tradesSkipped := s.counters.tradesSkipped + 1))
  }

  /** One event; `None` when a number does not parse and the replay gives up. */
  function ReplayNext(s: ReplayState, ev: ReplayEvent): Option<ReplayState> {
    match ev
    case SnapshotEvent(_, id, bids, asks) => AfterSnapshot(s, id, bids, asks)
    case DepthEvent(_, e) => AfterDepth(s, e)
    case TradeEvent(_, t) => Some(AfterTrade(s, t))
  }

  /** The events with numbers in the configured range, up to the first one past its end. */
  function ReplayFrom(s: ReplayState, events: seq<ReplayEvent>, first: Option<nat>,
                      last: Option<nat>): Option<ReplayState>
    decreases |events|
  {
    if events == [] then Some(s)
    else if first.Some? && events[0].seqNo < first.value then ReplayFrom(s, events[1..], first, last)
    else if last.Some? && events[0].seqNo > last.value then Some(s)
    else
      var next := ReplayNext(s, events[0]);
      if next.None? then None else ReplayFrom(next.value, events[1..], first, last)
  }

  /** The components that a replay drives; the live program drives the same ones. */
  class Replayer {
    const sync: Synchronizer
    const book: OrderBook
    const intake: TradeProcessor
    const shadow: ShadowBook
    const flow: TradeFlow
    var counters: Counters

    ghost predicate Valid()
      reads this, intake, flow
    {
      |intake.recentIds| <= DUPLICATE_WINDOW && flow.Valid()
    }

    ghost function View(): ReplayState
      reads this, sync, book, intake, shadow, flow
    {
      ReplayState(Feed(sync.View(), book.View()), intake.View(), shadow.View(), flow.totals, counters)
    }

    ghost function Parts(): set<object> {
      {this, sync, book, intake, shadow, flow}
    }

    constructor (intervals: seq<nat>, retentionMs: nat)
      requires forall i | 0 <= i < |intervals| :: intervals[i] > 0
      requires forall i, j | 0 <= i < j < |intervals| :: intervals[i] != intervals[j]
      ensures Valid() && View() == ReplayStart && fresh(Parts())
    {
      sync := new Synchronizer();
      book := new OrderBook();
      intake := new TradeProcessor();
      shadow := new ShadowBook();
      flow := new TradeFlow(intervals, retentionMs);
      counters := Counters(0, 0, 0, 0, 0, 0, 0);
      new;
      sync.OnConnected();
    }

    method OnSnapshot(id: nat, bids: seq<Quote>, asks: seq<Quote>) returns (ok: bool)
      requires Valid()
      modifies this, sync, book, shadow
      ensures Valid()
      ensures ok == AfterSnapshot(old(View()), id, bids, asks).Some?
      ensures ok ==> View() == AfterSnapshot(old(View()), id, bids, asks).value
    {
      hide SnapshotApplied, ReconcileStep, Listing, Loaded, RunLength, SnapshotCounted;
      sync.OnSnapshotLoading();
      ok := book.ApplySnapshot(bids, asks, id);
      if !ok { return; }
      var applied: Option<nat>;
      applied, ok := ReconcileInto(sync, book, id);
      if !ok { return; }
      counters := SnapshotCounted(counters, applied);
      var full := book.Snapshot();
      shadow.ApplySnapshot(full.bids, full.asks, id);
    }

    method OnDepth(e: DepthUpdate) returns (ok: bool)
      requires Valid()
      modifies this, sync, book, shadow
      ensures Valid()
      ensures ok == AfterDepth(old(View()), e).Some?
      ensures ok ==> View() == AfterDepth(old(View()), e).value
    {
      hide DepthStep, LenientLevels, DepthCounted, Overlay;
      var r: LiveResult;
      r, ok := FeedDepth(sync, book, e);
      if !ok { return; }
      counters := DepthCounted(counters, r);
      if r == Apply {
        var _ := shadow.ApplyUpdate(LenientLevels(e.bids), LenientLevels(e.asks), e.finalId);
      }
    }

    method OnTrade(t: Trade)
      requires Valid()
      modifies this, intake, flow
      ensures Valid()
      ensures View() == AfterTrade(old(View()), t)
    {
      var r := intake.Process(t);
      if r == Processed {
        counters := counters.(tradesProcessed := counters.tradesProcessed + 1);
        var _ := flow.OnTrade(t);
      } else {
        counters := counters.(tradesSkipped := counters.tradesSkipped + 1);
      }
    }

    method OnEvent(ev: ReplayEvent) returns (ok: bool)
      requires Valid()
      modifies Parts()
      ensures Valid()
      ensures ok == ReplayNext(old(View()), ev).Some?
      ensures ok ==> View() == ReplayNext(old(View()), ev).value
    {
      match ev {
        case SnapshotEvent(_, id, bids, asks) => ok := OnSnapshot(id, bids, asks);
        case DepthEvent(_, e) => ok := OnDepth(e);
        case TradeEvent(_, t) =>
          OnTrade(t);
          ok := true;
      }
    }
  }

  /** The whole replay: fresh components, one event after the other, restricted to a range. */
  method RunReplay(events: seq<ReplayEvent>, first: Option<nat>, last: Option<nat>, intervals: seq<nat>,
                   retentionMs: nat)
    returns (r: Option<Replayer>)
    requires forall i | 0 <= i < |intervals| :: intervals[i] > 0
    requires forall i, j | 0 <= i < j < |intervals| :: intervals[i] != intervals[j]
    ensures r.Some? == ReplayFrom(ReplayStart, events, first, last).Some?
    ensures r.Some? ==> r.value.View() == ReplayFrom(ReplayStart, events, first, last).value
  {
    var replayer := new Replayer(intervals, retentionMs);
    var i := 0;
    while i < |events|
      invariant 0 <= i <= |events|
      invariant replayer.Valid() && fresh(replayer.Parts())
      invariant ReplayFrom(replayer.View(), events[i..], first, last) == ReplayFrom(ReplayStart, events, first, last)
    {
      var ev := events[i];
      assert events[i..][1..] == events[i + 1..];
      i := i + 1;
      if first.Some? && ev.seqNo < first.value { continue; }
      if last.Some? && ev.seqNo > last.value {
        return Some(replayer);
      }
      var ok := replayer.OnEvent(ev);
      if !ok { return None; }
    }
    r := Some(replayer);
  }

  predicate SeqOrder(a: ReplayEvent, b: ReplayEvent) {
    a.seqNo <= b.seqNo
  }

  function SnapshotEvents(rows: seq<SnapshotRow>): (r: seq<ReplayEvent>)
    ensures |r| == |rows|
  {
    seq(|rows|, i requires 0 <= i < |rows| =>
      SnapshotEvent(rows[i].seqNo, rows[i].updateId, Decoded(rows[i].bids), Decoded(rows[i].asks)))
  }

  function DepthEvents(updates: seq<NumberedUpdate>): (r: seq<ReplayEvent>)
    ensures |r| == |updates|
  {
    seq(|updates|, i requires 0 <= i < |updates| => DepthEvent(updates[i].seqNo, updates[i].update))
  }

  function TradeEvents(rows: seq<TradeRow>): (r: seq<ReplayEvent>)
    ensures |r| == |rows|
  {
    seq(|rows|, i requires 0 <= i < |rows| => TradeEvent(rows[i].seqNo, rows[i].trade))
  }

  /** The three tables of a session merged into one stream ordered by sequence number. */
  method LoadSession(snapshots: seq<SnapshotRow>, levels: seq<LevelRow>, trades: seq<TradeRow>)
    returns (events: seq<ReplayEvent>)
    ensures events == Session(snapshots, levels, trades)
  {
    events := SnapshotEvents(snapshots);
    var updates := ReconstructDepthUpdates(levels);
    events := events + DepthEvents(updates);
    events := events + TradeEvents(trades);
    events := SortedBy(events, SeqOrder);
  }

  function Session(snapshots: seq<SnapshotRow>, levels: seq<LevelRow>, trades: seq<TradeRow>): seq<ReplayEvent> {
    SortedBy(SnapshotEvents(snapshots) + DepthEvents(Regrouped(levels)) + TradeEvents(trades), SeqOrder)
  }
}
