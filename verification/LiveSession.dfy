/** The recording event loop (src/main.rs, `cmd_record`), one atomic step per message: depth event,
    snapshot, trade. What the recorder is given is taken to be stored, in order. */
module LiveSession {
  import opened DepthFeed
  import opened Flow
  import opened OrderBooks
  import opened Rows
  import opened Synchronization
  import opened Trades
  import opened Wire

  datatype Input =
    | DepthIn(update: DepthUpdate)
    | SnapshotIn(id: nat, bids: seq<Quote>, asks: seq<Quote>)
    | TradeIn(trade: Trade)
    | RejectedIn(time: nat)

  datatype LiveState = LiveState(
    feed: Feed,
    intake: Intake,
    totals: FlowTotals,
    nextSeq: nat,
    levelRows: seq<LevelRow>,
    snapshotRows: seq<SnapshotRow>,
    tradeRows: seq<TradeRow>)

  const LiveStart :=
    LiveState(Feed(Connected(FreshSync), EmptyBook), EmptyIntake, FlowTotals(0, 0, 0, 0), 1, [], [], [])

  /** The raw message takes a sequence number of its own before the event does. */
  function DepthTaken(s: LiveState, e: DepthUpdate): LiveState {
    s.(feed := DepthStep(s.feed, e).0, nextSeq := s.nextSeq + 2, levelRows := s.levelRows + RowsOf(s.nextSeq + 1, e))
  }

  function SnapshotTaken(s: LiveState, id: nat, bids: seq<Quote>, asks: seq<Quote>): LiveState {
    var (feed, ok) := SnapshotStep(s.feed, bids, asks, id);
    if !SnapshotApplied(s.feed.book, bids, asks, id).1 then s.(feed := feed)
    else
      s.(feed := feed, nextSeq := s.nextSeq + 1,
      snapshotRows := s.snapshotRows + [SnapshotRow(s.nextSeq, id, Encoded(bids), Encoded(asks))])
  }

  function TradeTaken(s: LiveState, t: Trade): LiveState {
    var (intake, r) := Taken(s.intake, t, DUPLICATE_WINDOW);
    if r == Processed then
      s.(intake := intake, totals := TotalsAfter(s.totals, t), nextSeq := s.nextSeq + 2,
      tradeRows := s.tradeRows + [TradeRow(s.nextSeq + 1, t)])
    else s.(intake := intake, nextSeq := s.nextSeq + 1)
  }

  function LiveNext(s: LiveState, input: Input): LiveState {
    match input
    case DepthIn(e) => DepthTaken(s, e)
    case SnapshotIn(id, bids, asks) => SnapshotTaken(s, id, bids, asks)
    case TradeIn(t) => TradeTaken(s, t)
    case RejectedIn(_) => s.(nextSeq := s.nextSeq + 1)
  }

  function LiveRun(inputs: seq<Input>): LiveState {
    if inputs == [] then LiveStart else LiveNext(LiveRun(inputs[..|inputs| - 1]), inputs[|inputs| - 1])
  }

  class RecordingSession {
    const sync: Synchronizer
    const book: OrderBook
    const intake: TradeProcessor
    const flow: TradeFlow
    var nextSeq: nat
    var levelRows: seq<LevelRow>
    var snapshotRows: seq<SnapshotRow>
    var tradeRows: seq<TradeRow>

    ghost predicate Valid()
      reads this, intake, flow
    {
      |intake.recentIds| <= DUPLICATE_WINDOW && flow.Valid()
    }

    ghost function View(): LiveState
      reads this, sync, book, intake, flow
    {
      LiveState(Feed(sync.View(), book.View()), intake.View(), flow.totals, nextSeq, levelRows, snapshotRows, tradeRows)
    }

    constructor (intervals: seq<nat>, retentionMs: nat)
      requires forall i | 0 <= i < |intervals| :: intervals[i] > 0
      requires forall i, j | 0 <= i < j < |intervals| :: intervals[i] != intervals[j]
      ensures Valid() && View() == LiveStart
      ensures fresh({this, sync, book, intake, flow})
    {
      sync := new Synchronizer();
      book := new OrderBook();
      intake := new TradeProcessor();
      flow := new TradeFlow(intervals, retentionMs);
      nextSeq, levelRows, snapshotRows, tradeRows := 1, [], [], [];
      new;
      sync.OnConnected();
    }

    method NextSeq() returns (n: nat)
      modifies this`nextSeq
      ensures n == old(nextSeq) && nextSeq == n + 1
    {
      n := nextSeq;
      nextSeq := nextSeq + 1;
    }

    method OnDepth(e: DepthUpdate)
      requires Valid()
      modifies this, sync, book
      ensures Valid() && View() == DepthTaken(old(View()), e)
    {
      hide DepthStep, RowsOf;
      var raw := NextSeq();
      var number := NextSeq();
      var rows := RecordDepthRows(number, e);
      if rows != [] {
        levelRows := levelRows + rows;
      }
      var _, _ := FeedDepth(sync, book, e);
    }

    method OnSnapshot(id: nat, bids: seq<Quote>, asks: seq<Quote>)
      requires Valid()
      modifies this, sync, book
      ensures Valid() && View() == SnapshotTaken(old(View()), id, bids, asks)
    {
      hide SnapshotApplied, ReconcileStep, Encoded;
      sync.OnSnapshotLoading();
      var ok := book.ApplySnapshot(bids, asks, id);
      if !ok { return; }
      var number := NextSeq();
      snapshotRows := snapshotRows + [SnapshotRow(number, id, Encoded(bids), Encoded(asks))];
      var _, _ := ReconcileInto(sync, book, id);
    }

    method OnTrade(t: Trade)
      requires Valid()
      modifies this, intake, flow
      ensures Valid() && View() == TradeTaken(old(View()), t)
    {
      var raw := NextSeq();
      var r := intake.Process(t);
      if r == Processed {
        var number := NextSeq();
        tradeRows := tradeRows + [TradeRow(number, t)];
        var _ := flow.OnTrade(t);
      }
    }

    /** A trade message that is a marker or does not parse uses up the number of its raw payload. */
    method OnRejected()
      requires Valid()
      modifies this
      ensures Valid() && View() == LiveNext(old(View()), RejectedIn(0))
    {
      var raw := NextSeq();
    }
  }
}
