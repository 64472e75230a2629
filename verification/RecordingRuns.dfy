/** Every interleaving of recording, receiving, flushing and shutting down: what was accepted is
    stored, pending or queued, in order and once. */
module RecordingRuns {
  import opened Recording
  import opened Options
  import opened Rows
  import opened Wire

  datatype System = System(front: Front, queue: Queue, back: Back, finishing: bool)

  const Initial := System(FreshFront, Queue([], false), FreshBack, false)

  datatype Settings = Settings(capacity: nat, batchSize: nat)

  /** The recorder may act between any two steps of the worker. A channel whose senders are gone is
      empty when the worker notices, which is a drain of nothing followed by the last flush. */
  datatype Step =
    | RawIn(payload: string, time: nat)
    | TradeIn(trade: Trade)
    | DepthIn(update: DepthUpdate)
    | SnapshotIn(id: nat, bids: seq<Quote>, asks: seq<Quote>)
    | ReceiveOne(outcomes: Outcomes)
    | TickDue(outcomes: Outcomes)
    | DrainQueue
    | LastFlush(outcomes: Outcomes)

  /** The record that a step hands to the channel. */
  function Offer(s: System, x: Step): Option<Record> {
    match x
    case RawIn(payload, time) => Some(Raw(RawRow(s.front.nextSeq, time, payload)))
    case TradeIn(t) => Some(TradeRecord(TradeRow(s.front.nextSeq, t)))
    case DepthIn(e) =>
      var rows := RowsOf(s.front.nextSeq, e);
      if rows == [] then None else Some(DepthRecord(rows))
    case SnapshotIn(id, bids, asks) =>
      Some(SnapshotRecord(SnapshotRow(s.front.nextSeq, id, Encoded(bids), Encoded(asks))))
    case _ => None
  }

  function FrontAfter(f: Front, x: Step, result: SendResult): Front {
    match x
    case RawIn(_, _) => RawFront(f, result)
    case TradeIn(_) => TradeFront(f, result)
    case DepthIn(e) => DepthFront(f, e, result)
    case SnapshotIn(_, _, _) => SnapshotFront(f, result)
    case _ => f
  }

  predicate FromRecorder(x: Step) {
    x.RawIn? || x.TradeIn? || x.DepthIn? || x.SnapshotIn?
  }

  function Recorded(s: System, x: Step, cfg: Settings): System
    requires FromRecorder(x)
  {
    var offer := Offer(s, x);
    if offer.None? then s.(front := FrontAfter(s.front, x, Sent))
    else
      var (queue, result) := SendTo(s.queue, offer.value, cfg.capacity);
      s.(front := FrontAfter(s.front, x, result), queue := queue)
  }

  function Next(s: System, x: Step, cfg: Settings): System {
    match x
    case ReceiveOne(o) =>
      if s.finishing || s.queue.records == [] then s
      else
        s.(queue := s.queue.(records := s.queue.records[1..]),
        back := AfterRecord(s.back, s.queue.records[0], cfg.batchSize, o))
    case TickDue(o) => if s.finishing then s else s.(back := AllFlushed(s.back, o))
    case DrainQueue =>
      if s.finishing then s
      else
        s.(finishing := true, queue := s.queue.(records := []),
        back := s.back.(pending := AllEnqueued(s.back.pending, s.queue.records)))
    case LastFlush(o) =>
      if !s.finishing || s.queue.closed then s
      else s.(queue := s.queue.(closed := true), back := AllFlushed(s.back, o))
    case _ => Recorded(s, x, cfg)
  }

  /** The record that the channel accepts in a step, if any. */
  function Accepted(s: System, x: Step, cfg: Settings): seq<Record> {
    var offer := Offer(s, x);
    if offer.Some? && SendTo(s.queue, offer.value, cfg.capacity).1 == Sent then [offer.value] else []
  }

  function Run(steps: seq<Step>, cfg: Settings, n: nat): System
    requires n <= |steps|
  {
    if n == 0 then Initial else Next(Run(steps, cfg, n - 1), steps[n - 1], cfg)
  }

  /** Everything accepted in the first `n` steps. */
  function Log(steps: seq<Step>, cfg: Settings, n: nat): seq<Record>
    requires n <= |steps|
  {
    if n == 0 then [] else Log(steps, cfg, n - 1) + Accepted(Run(steps, cfg, n - 1), steps[n - 1], cfg)
  }

  /** The rows of each table in a list of records. */
  function RawsOf(records: seq<Record>): seq<RawRow> {
    if records == [] then [] else (if records[0].Raw? then [records[0].raw] else []) + RawsOf(records[1..])
  }

  function TradesOf(records: seq<Record>): seq<TradeRow> {
    if records == [] then [] else (if records[0].TradeRecord? then [records[0].trade] else []) + TradesOf(records[1..])
  }

  function LevelsIn(records: seq<Record>): seq<LevelRow> {
    if records == [] then [] else (if records[0].DepthRecord? then records[0].rows else []) + LevelsIn(records[1..])
  }

  /** The three streams of rows that are never overwritten. */
  datatype Streams = Streams(raw: seq<RawRow>, trades: seq<TradeRow>, depth: seq<LevelRow>)

  function StreamsOf(records: seq<Record>): Streams {
    Streams(RawsOf(records), TradesOf(records), LevelsIn(records))
  }

  function Joined(a: Streams, b: Streams): Streams {
    Streams(a.raw + b.raw, a.trades + b.trades, a.depth + b.depth)
  }

  function Waiting(b: Batches): Streams {
    Streams(b.raw, b.trades, b.depth)
  }

  function InTables(t: Tables): Streams {
    Streams(t.raw, t.trades, t.depth)
  }

  /** Stored, then pending. */
  function Held(b: Back): Streams {
    Joined(InTables(b.tables), Waiting(b.pending))
  }

  lemma {:induction false} StreamsConcat(a: seq<Record>, b: seq<Record>)
    ensures StreamsOf(a + b) == Joined(StreamsOf(a), StreamsOf(b))
    decreases |a|
  {
    if a == [] {
      assert a + b == b;
    } else {
      assert (a + b)[1..] == a[1..] + b;
      StreamsConcat(a[1..], b);
    }
  }

  lemma JoinedAssociative(a: Streams, b: Streams, c: Streams)
    ensures Joined(Joined(a, b), c) == Joined(a, Joined(b, c))
  {
  }

  lemma SingleStreams(r: Record)
    ensures StreamsOf([r]) == Streams(if r.Raw? then [r.raw] else [], if r.TradeRecord? then [r.trade] else [],
                                      if r.DepthRecord? then r.rows else [])
  {
    assert [r][1..] == [];
    assert RawsOf([r]) == if r.Raw? then [r.raw] else [];
    assert TradesOf([r]) == if r.TradeRecord? then [r.trade] else [];
    assert LevelsIn([r]) == if r.DepthRecord? then r.rows else [];
  }

  lemma EnqueuedWaits(b: Batches, r: Record)
    ensures Waiting(Enqueued(b, r)) == Joined(Waiting(b), StreamsOf([r]))
  {
    SingleStreams(r);
  }

  lemma {:induction false} AllEnqueuedWait(b: Batches, records: seq<Record>)
    ensures Waiting(AllEnqueued(b, records)) == Joined(Waiting(b), StreamsOf(records))
    decreases |records|
  {
    hide Enqueued, Waiting;
    if records == [] {
      NothingJoined(Waiting(b));
    } else {
      assert records == [records[0]] + records[1..];
      AllEnqueuedWait(Enqueued(b, records[0]), records[1..]);
      EnqueuedWaits(b, records[0]);
      StreamsConcat([records[0]], records[1..]);
      JoinedAssociative(Waiting(b), StreamsOf([records[0]]), StreamsOf(records[1..]));
    }
  }

  lemma NothingJoined(s: Streams)
    ensures Joined(s, StreamsOf([])) == s
  {
  }

  /** A flush moves rows from pending to stored; it loses, adds and reorders none. */
  lemma FlushKeepsHeld(b: Back, o: Outcomes)
    ensures Held(AllFlushed(b, o)) == Held(b)
    ensures o.raw && o.trades && o.depth ==> Waiting(AllFlushed(b, o).pending) == Streams([], [], [])
  {
    var r := RawFlushed(b, o.raw);
    assert Held(r) == Held(b);
    var t := TradesFlushed(r, o.trades);
    assert Held(t) == Held(r);
    var d := DepthFlushed(t, o.depth);
    assert Held(d) == Held(t);
  }

  ghost predicate Conserved(s: System, log: seq<Record>) {
    StreamsOf(log) == Joined(Held(s.back), StreamsOf(s.queue.records))
  }

  lemma ReceiveKeeps(s: System, log: seq<Record>, o: Outcomes, cfg: Settings)
    requires Conserved(s, log)
    ensures Conserved(Next(s, ReceiveOne(o), cfg), log)
  {
    hide AllFlushed, Enqueued, StreamsOf;
    if !s.finishing && s.queue.records != [] {
      var r, rest := s.queue.records[0], s.queue.records[1..];
      assert s.queue.records == [r] + rest;
      StreamsConcat([r], rest);
      EnqueuedWaits(s.back.pending, r);
      var next := s.back.(pending := Enqueued(s.back.pending, r));
      FlushKeepsHeld(next, o);
      JoinedAssociative(InTables(s.back.tables), Waiting(s.back.pending), StreamsOf([r]));
      JoinedAssociative(Held(s.back), StreamsOf([r]), StreamsOf(rest));
    }
  }

  lemma DrainKeeps(s: System, log: seq<Record>, cfg: Settings)
    requires Conserved(s, log)
    ensures Conserved(Next(s, DrainQueue, cfg), log)
    ensures !s.finishing ==> Held(Next(s, DrainQueue, cfg).back) == StreamsOf(log)
  {
    hide AllEnqueued, StreamsOf;
    AllEnqueuedWait(s.back.pending, s.queue.records);
    JoinedAssociative(InTables(s.back.tables), Waiting(s.back.pending), StreamsOf(s.queue.records));
    NothingJoined(StreamsOf(log));
  }

  lemma RecorderKeeps(s: System, log: seq<Record>, x: Step, cfg: Settings)
    requires Conserved(s, log) && FromRecorder(x)
    ensures Conserved(Next(s, x, cfg), log + Accepted(s, x, cfg))
  {
    hide StreamsOf, Offer, FrontAfter, Held;
    var accepted := Accepted(s, x, cfg);
    StreamsConcat(log, accepted);
    StreamsConcat(s.queue.records, accepted);
    JoinedAssociative(Held(s.back), StreamsOf(s.queue.records), StreamsOf(accepted));
    assert log + [] == log;
    var next := Next(s, x, cfg);
    assert next.queue.records == s.queue.records + accepted;
  }

  lemma StepKeeps(s: System, log: seq<Record>, x: Step, cfg: Settings)
    requires Conserved(s, log)
    ensures Conserved(Next(s, x, cfg), log + Accepted(s, x, cfg))
  {
    hide StreamsOf, AllFlushed, Held, AllEnqueued, Joined;
    if FromRecorder(x) {
      RecorderKeeps(s, log, x, cfg);
    } else {
      assert log + Accepted(s, x, cfg) == log;
      match x {
        case ReceiveOne(o) => ReceiveKeeps(s, log, o, cfg);
        case TickDue(o) => FlushKeepsHeld(s.back, o);
        case DrainQueue => DrainKeeps(s, log, cfg);
        case LastFlush(o) => FlushKeepsHeld(s.back, o);
      }
    }
  }

  /** Under any interleaving and any insert failures, the accepted raw, trade and depth rows are the
      stored ones, then the pending ones, then the queued ones. */
  lemma {:induction false} AcceptedIsConserved(steps: seq<Step>, cfg: Settings, n: nat)
    requires n <= |steps|
    ensures Conserved(Run(steps, cfg, n), Log(steps, cfg, n))
  {
    hide Next, Accepted, Conserved;
    if n == 0 {
      NothingAccepted();
    } else {
      AcceptedIsConserved(steps, cfg, n - 1);
      StepKeeps(Run(steps, cfg, n - 1), Log(steps, cfg, n - 1), steps[n - 1], cfg);
    }
  }

  lemma NothingAccepted()
    ensures Conserved(Initial, [])
  {
  }

  /** Counters against what was accepted, the bound of the queue, and who is told of a drop. */
  ghost predicate Counted(s: System, log: seq<Record>, cfg: Settings) {
    && s.front.rawReceived == |RawsOf(log)| + s.front.rawDropped
    && s.front.tradesReceived == |TradesOf(log)| + s.front.tradesDropped
    && |s.queue.records| <= cfg.capacity
    && (s.front.rawDropped + s.front.tradesDropped + s.front.depthDropped > 0
        ==> s.front.overflows > 0 || s.queue.closed)
  }

  ghost predicate TablesCounted(b: Back) {
    b.rawStored == |b.tables.raw| && b.tradesStored == |b.tables.trades| && b.depthStored == |b.tables.depth|
    && b.snapshotsStored == |b.tables.snapshots|
  }

  lemma FlushCounts(b: Back, o: Outcomes)
    requires TablesCounted(b)
    ensures TablesCounted(AllFlushed(b, o))
  {
    var r := RawFlushed(b, o.raw);
    assert TablesCounted(r);
    var t := TradesFlushed(r, o.trades);
    assert TablesCounted(t);
    var d := DepthFlushed(t, o.depth);
    assert TablesCounted(d);
  }

  lemma RecorderCounts(s: System, log: seq<Record>, x: Step, cfg: Settings)
    requires Counted(s, log, cfg) && FromRecorder(x)
    ensures Counted(Next(s, x, cfg), log + Accepted(s, x, cfg), cfg)
  {
    hide RowsOf, Encoded, RawsOf, TradesOf, LevelsIn;
    var accepted := Accepted(s, x, cfg);
    StreamsConcat(log, accepted);
    NoRows();
    if accepted != [] { SingleStreams(accepted[0]); }
    assert x.DepthIn? && accepted == [] && RowsOf(s.front.nextSeq, x.update) != [] ==> Offer(s, x).Some?;
  }

  lemma StepCounts(s: System, log: seq<Record>, x: Step, cfg: Settings)
    requires Counted(s, log, cfg) && TablesCounted(s.back)
    ensures Counted(Next(s, x, cfg), log + Accepted(s, x, cfg), cfg) && TablesCounted(Next(s, x, cfg).back)
  {
    hide AllFlushed, Enqueued, AllEnqueued, RowsOf, Encoded;
    var accepted := Accepted(s, x, cfg);
    if FromRecorder(x) {
      RecorderCounts(s, log, x, cfg);
    } else {
      assert log + accepted == log;
      match x {
        case ReceiveOne(o) =>
          if !s.finishing && s.queue.records != [] {
            FlushCounts(s.back.(pending := Enqueued(s.back.pending, s.queue.records[0])), o);
          }
        case TickDue(o) => FlushCounts(s.back, o);
        case LastFlush(o) => FlushCounts(s.back, o);
        case DrainQueue =>
      }
    }
  }

  lemma {:induction false} RunCounts(steps: seq<Step>, cfg: Settings, n: nat)
    requires n <= |steps|
    ensures Counted(Run(steps, cfg, n), Log(steps, cfg, n), cfg) && TablesCounted(Run(steps, cfg, n).back)
  {
    hide Next, Accepted, Counted, TablesCounted;
    if n == 0 {
      NothingCounted(cfg);
    } else {
      RunCounts(steps, cfg, n - 1);
      StepCounts(Run(steps, cfg, n - 1), Log(steps, cfg, n - 1), steps[n - 1], cfg);
    }
  }

  lemma NothingCounted(cfg: Settings)
    ensures Counted(Initial, [], cfg) && TablesCounted(Initial.back)
  {
  }

  /** Raw payloads and trades: received is stored, pending, queued and dropped; a drop leaves a queue
      overflow on record or comes after the worker is gone. */
  lemma ReceivedIsAccountedFor(steps: seq<Step>, cfg: Settings, n: nat)
    requires n <= |steps|
    ensures var s := Run(steps, cfg, n);
      && s.front.rawReceived
         == s.back.rawStored + |s.back.pending.raw| + |RawsOf(s.queue.records)| + s.front.rawDropped
      && s.front.tradesReceived
         == s.back.tradesStored + |s.back.pending.trades| + |TradesOf(s.queue.records)| + s.front.tradesDropped
      && (s.front.rawDropped + s.front.tradesDropped + s.front.depthDropped > 0
          ==> s.front.overflows > 0 || s.queue.closed)
  {
    AcceptedIsConserved(steps, cfg, n);
    RunCounts(steps, cfg, n);
  }

  ghost predicate RawNumbered(rows: seq<RawRow>, bound: nat) {
    && (forall i | 0 <= i < |rows| :: rows[i].seqNo < bound)
    && (forall i, j | 0 <= i < j < |rows| :: rows[i].seqNo < rows[j].seqNo)
  }

  ghost predicate TradesNumbered(rows: seq<TradeRow>, bound: nat) {
    && (forall i | 0 <= i < |rows| :: rows[i].seqNo < bound)
    && (forall i, j | 0 <= i < j < |rows| :: rows[i].seqNo < rows[j].seqNo)
  }

  /** Rows of one event share a number, so numbers of level rows do not fall. */
  ghost predicate LevelsNumbered(rows: seq<LevelRow>, bound: nat) {
    && (forall i | 0 <= i < |rows| :: rows[i].seqNo < bound)
    && (forall i, j | 0 <= i < j < |rows| :: rows[i].seqNo <= rows[j].seqNo)
  }

  lemma AcceptedLevels(s: System, x: Step, cfg: Settings)
    ensures forall i | 0 <= i < |LevelsIn(Accepted(s, x, cfg))| ::
              LevelsIn(Accepted(s, x, cfg))[i].seqNo == s.front.nextSeq && x.DepthIn?
  {
    hide RowsOf, Encoded, RawsOf, TradesOf, LevelsIn;
    var accepted := Accepted(s, x, cfg);
    if accepted == [] {
      NoRows();
    } else {
      SingleStreams(accepted[0]);
      if x.DepthIn? { NumbersOfRows(s.front.nextSeq, x.update); }
    }
  }

  lemma {:induction false} LevelsInOrder(steps: seq<Step>, cfg: Settings, n: nat)
    requires n <= |steps|
    ensures LevelsNumbered(LevelsIn(Log(steps, cfg, n)), Run(steps, cfg, n).front.nextSeq)
  {
    hide Next, Accepted, RawsOf, TradesOf, LevelsIn;
    if n == 0 {
      NoRows();
    } else {
      var s, log, x := Run(steps, cfg, n - 1), Log(steps, cfg, n - 1), steps[n - 1];
      LevelsInOrder(steps, cfg, n - 1);
      AcceptedNumber(s, x, cfg);
      AcceptedLevels(s, x, cfg);
      StreamsConcat(log, Accepted(s, x, cfg));
    }
  }

  lemma AcceptedNumber(s: System, x: Step, cfg: Settings)
    ensures RawsOf(Accepted(s, x, cfg)) == []
         || (x.RawIn? && RawsOf(Accepted(s, x, cfg)) == [RawRow(s.front.nextSeq, x.time, x.payload)])
    ensures TradesOf(Accepted(s, x, cfg)) == []
         || (x.TradeIn? && TradesOf(Accepted(s, x, cfg)) == [TradeRow(s.front.nextSeq, x.trade)])
    ensures Next(s, x, cfg).front.nextSeq == s.front.nextSeq + if FromRecorder(x) then 1 else 0
  {
    hide RowsOf, Encoded, AllFlushed, AllEnqueued;
    var accepted := Accepted(s, x, cfg);
    if accepted != [] { assert accepted[1..] == []; }
  }

  lemma {:induction false} LogIsNumbered(steps: seq<Step>, cfg: Settings, n: nat)
    requires n <= |steps|
    ensures RawNumbered(RawsOf(Log(steps, cfg, n)), Run(steps, cfg, n).front.nextSeq)
    ensures TradesNumbered(TradesOf(Log(steps, cfg, n)), Run(steps, cfg, n).front.nextSeq)
  {
    hide Next, Accepted, RawsOf, TradesOf, LevelsIn;
    if n == 0 {
      assert RawsOf([]) == [] && TradesOf([]) == [] by { NoRows(); }
    } else {
      var s, log, x := Run(steps, cfg, n - 1), Log(steps, cfg, n - 1), steps[n - 1];
      LogIsNumbered(steps, cfg, n - 1);
      AcceptedNumber(s, x, cfg);
      StreamsConcat(log, Accepted(s, x, cfg));
    }
  }

  lemma NoRows()
    ensures RawsOf([]) == [] && TradesOf([]) == [] && LevelsIn([]) == []
  {
  }

  /** The tables hold raw payloads and trades by strictly increasing number, in order and none twice, and
      level rows event by event. */
  lemma StoredInOrder(steps: seq<Step>, cfg: Settings, n: nat)
    requires n <= |steps|
    ensures var s := Run(steps, cfg, n);
      && RawNumbered(s.back.tables.raw, s.front.nextSeq)
      && TradesNumbered(s.back.tables.trades, s.front.nextSeq)
      && LevelsNumbered(s.back.tables.depth, s.front.nextSeq)
  {
    hide Run, Log, RawsOf, TradesOf, LevelsIn;
    AcceptedIsConserved(steps, cfg, n);
    LogIsNumbered(steps, cfg, n);
    LevelsInOrder(steps, cfg, n);
    var s, log := Run(steps, cfg, n), Log(steps, cfg, n);
    LevelPrefixNumbered(s.back.tables.depth, s.back.pending.depth, LevelsIn(s.queue.records), s.front.nextSeq);
    PrefixNumbered(s.back.tables.raw, s.back.pending.raw, RawsOf(s.queue.records), s.front.nextSeq);
    TradePrefixNumbered(s.back.tables.trades, s.back.pending.trades, TradesOf(s.queue.records), s.front.nextSeq);
  }

  lemma PrefixNumbered(a: seq<RawRow>, b: seq<RawRow>, c: seq<RawRow>, bound: nat)
    requires RawNumbered(a + b + c, bound)
    ensures RawNumbered(a, bound)
  {
    assert forall i | 0 <= i < |a| :: (a + b + c)[i] == a[i];
  }

  lemma LevelPrefixNumbered(a: seq<LevelRow>, b: seq<LevelRow>, c: seq<LevelRow>, bound: nat)
    requires LevelsNumbered(a + b + c, bound)
    ensures LevelsNumbered(a, bound)
  {
    assert forall i | 0 <= i < |a| :: (a + b + c)[i] == a[i];
  }

  lemma TradePrefixNumbered(a: seq<TradeRow>, b: seq<TradeRow>, c: seq<TradeRow>, bound: nat)
    requires TradesNumbered(a + b + c, bound)
    ensures TradesNumbered(a, bound)
  {
    assert forall i | 0 <= i < |a| :: (a + b + c)[i] == a[i];
  }

  /** Once the queue is drained nothing but the last flush touches the batches and tables. */
  lemma {:induction false} DrainedUntilLastFlush(steps: seq<Step>, cfg: Settings, i: nat, k: nat)
    requires i < k <= |steps| && steps[i].DrainQueue?
    requires !Run(steps, cfg, i).finishing
    requires forall j | i < j < k :: !steps[j].LastFlush?
    ensures Run(steps, cfg, k).finishing && Run(steps, cfg, k).back == Run(steps, cfg, i + 1).back
    ensures Run(steps, cfg, k).queue.closed == Run(steps, cfg, i).queue.closed
    decreases k
  {
    hide AllEnqueued, AllFlushed, RowsOf, Encoded;
    if k > i + 1 {
      DrainedUntilLastFlush(steps, cfg, i, k - 1);
    }
  }

  lemma {:induction false} NothingAfterLastFlush(steps: seq<Step>, cfg: Settings, j: nat, k: nat)
    requires j <= k <= |steps| && Run(steps, cfg, j).finishing && Run(steps, cfg, j).queue.closed
    ensures Run(steps, cfg, k).finishing && Run(steps, cfg, k).queue.closed
    ensures Run(steps, cfg, k).back == Run(steps, cfg, j).back
    decreases k
  {
    hide AllEnqueued, AllFlushed, RowsOf, Encoded;
    if k > j {
      NothingAfterLastFlush(steps, cfg, j, k - 1);
    }
  }

  lemma {:induction false} OpenUntilFinished(steps: seq<Step>, cfg: Settings, n: nat)
    requires n <= |steps| && !Run(steps, cfg, n).finishing
    ensures !Run(steps, cfg, n).queue.closed
  {
    hide AllEnqueued, AllFlushed, RowsOf, Encoded;
    if n > 0 { OpenUntilFinished(steps, cfg, n - 1); }
  }

  /** A shutdown whose last inserts succeed leaves in the tables exactly what had been accepted when
      the queue was drained, for good. A record accepted during the last flush is never stored. */
  lemma ShutdownStoresWhatWasDrained(steps: seq<Step>, cfg: Settings, i: nat, j: nat, k: nat)
    requires i < j < k <= |steps|
    requires steps[i].DrainQueue? && !Run(steps, cfg, i).finishing
    requires forall x | i < x < j :: !steps[x].LastFlush?
    requires steps[j].LastFlush? && steps[j].outcomes.raw && steps[j].outcomes.trades && steps[j].outcomes.depth
    ensures InTables(Run(steps, cfg, k).back.tables) == StreamsOf(Log(steps, cfg, i + 1))
  {
    hide AllEnqueued, AllFlushed, StreamsOf, Run;
    OpenUntilFinished(steps, cfg, i);
    RunStep(steps, cfg, i);
    RunStep(steps, cfg, j);
    AcceptedIsConserved(steps, cfg, i);
    DrainKeeps(Run(steps, cfg, i), Log(steps, cfg, i), cfg);
    assert Log(steps, cfg, i + 1) == Log(steps, cfg, i);
    DrainedUntilLastFlush(steps, cfg, i, j);
    FlushKeepsHeld(Run(steps, cfg, j).back, steps[j].outcomes);
    NothingAfterLastFlush(steps, cfg, j + 1, k);
  }

  lemma RunStep(steps: seq<Step>, cfg: Settings, n: nat)
    requires n < |steps|
    ensures Run(steps, cfg, n + 1) == Next(Run(steps, cfg, n), steps[n], cfg)
  {
  }
}
