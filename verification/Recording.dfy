/** The bounded recording queue and its storage worker (src/recording/recorder.rs,
    src/recording/worker.rs). */
module Recording {
  import opened Options
  import opened Rows
  import opened Wire

  datatype RawRow = RawRow(seqNo: nat, eventTime: nat, payload: string)

  datatype Record =
    | Raw(raw: RawRow)
    | TradeRecord(trade: TradeRow)
    | DepthRecord(rows: seq<LevelRow>)
    | SnapshotRecord(snapshot: SnapshotRow)

  /** What is recorded per message: received and dropped counts, queue overflows. */
  datatype Front = Front(
    nextSeq: nat,
    rawReceived: nat, rawDropped: nat,
    tradesReceived: nat, tradesDropped: nat,
    depthReceived: nat, depthDropped: nat,
    overflows: nat)

  const FreshFront := Front(1, 0, 0, 0, 0, 0, 0, 0)

  /** The channel between recorder and worker; it is closed once the worker is gone. */
  datatype Queue = Queue(records: seq<Record>, closed: bool)

  datatype SendResult = Sent | Full | Closed

  function SendTo(q: Queue, r: Record, capacity: nat): (Queue, SendResult) {
    if q.closed then (q, Closed)
    else if |q.records| >= capacity then (q, Full)
    else (q.(records := q.records + [r]), Sent)
  }

  function AfterSend(f: Front, result: SendResult): Front {
    if result == Full then f.(overflows := f.overflows + 1) else f
  }

  function RawFront(f: Front, result: SendResult): Front {
    var next := AfterSend(f.(rawReceived := f.rawReceived + 1, nextSeq := f.nextSeq + 1), result);
    if result == Sent then next else next.(rawDropped := next.rawDropped + 1)
  }

  function TradeFront(f: Front, result: SendResult): Front {
    var next := AfterSend(f.(tradesReceived := f.tradesReceived + 1, nextSeq := f.nextSeq + 1), result);
    if result == Sent then next else next.(tradesDropped := next.tradesDropped + 1)
  }

  /** An event without a level that parses uses a number but is not sent. */
  function DepthFront(f: Front, e: DepthUpdate, result: SendResult): Front {
    var next := f.(depthReceived := f.depthReceived + 1, nextSeq := f.nextSeq + 1);
    if RowsOf(f.nextSeq, e) == [] then next
    else
      var sent := AfterSend(next, result);
      if result == Sent then sent else sent.(depthDropped := sent.depthDropped + 1)
  }

  function SnapshotFront(f: Front, result: SendResult): Front {
    AfterSend(f.(nextSeq := f.nextSeq + 1), result)
  }

  class Channel {
    const capacity: nat
    var records: seq<Record>
    var closed: bool

    ghost function View(): Queue
      reads this
    {
      Queue(records, closed)
    }

    constructor (capacity: nat)
      ensures View() == Queue([], false) && this.capacity == capacity
    {
      this.capacity := capacity;
      records, closed := [], false;
    }

    method TrySend(r: Record) returns (result: SendResult)
      modifies this
      ensures View() == SendTo(old(View()), r, capacity).0
      ensures result == SendTo(old(View()), r, capacity).1
    {
      if closed { return Closed; }
      if |records| >= capacity { return Full; }
      records := records + [r];
      return Sent;
    }

    method TryReceive() returns (r: Option<Record>)
      modifies this
      ensures old(records) == [] ==> r == None && View() == old(View())
      ensures old(records) != [] ==> r == Some(old(records)[0]) && View() == old(View()).(records := old(records)[1..])
    {
      if records == [] { return None; }
      r := Some(records[0]);
      records := records[1..];
    }

    method Close()
      modifies this
      ensures View() == old(View()).(closed := true)
    {
      closed := true;
    }
  }

  class Recorder {
    const channel: Channel
    var front: Front

    constructor (channel: Channel)
      ensures this.channel == channel && front == FreshFront
    {
      this.channel := channel;
      front := FreshFront;
    }

    method NextSeq() returns (n: nat)
      modifies this
      ensures n == old(front).nextSeq && front == old(front).(nextSeq := n + 1)
    {
      n := front.nextSeq;
      front := front.(nextSeq := n + 1);
    }

    method Send(r: Record) returns (sent: bool)
      modifies this, channel
      ensures channel.View() == SendTo(old(channel.View()), r, channel.capacity).0
      ensures front == AfterSend(old(front), SendTo(old(channel.View()), r, channel.capacity).1)
      ensures sent == (SendTo(old(channel.View()), r, channel.capacity).1 == Sent)
    {
      var result := channel.TrySend(r);
      match result {
        case Sent => return true;
        case Full =>
          front := front.(overflows := front.overflows + 1);
          return false;
        case Closed => return false;
      }
    }

    method RecordRaw(payload: string, eventTime: nat)
      modifies this, channel
      ensures var r := Raw(RawRow(old(front).nextSeq, eventTime, payload));
        && channel.View() == SendTo(old(channel.View()), r, channel.capacity).0
        && front == RawFront(old(front), SendTo(old(channel.View()), r, channel.capacity).1)
    {
      front := front.(rawReceived := front.rawReceived + 1);
      var n := NextSeq();
      var sent := Send(Raw(RawRow(n, eventTime, payload)));
      if !sent { front := front.(rawDropped := front.rawDropped + 1); }
    }

    method RecordTrade(t: Trade)
      modifies this, channel
      ensures var r := TradeRecord(TradeRow(old(front).nextSeq, t));
        && channel.View() == SendTo(old(channel.View()), r, channel.capacity).0
        && front == TradeFront(old(front), SendTo(old(channel.View()), r, channel.capacity).1)
    {
      front := front.(tradesReceived := front.tradesReceived + 1);
      var n := NextSeq();
      var sent := Send(TradeRecord(TradeRow(n, t)));
      if !sent { front := front.(tradesDropped := front.tradesDropped + 1); }
    }

    method RecordDepthEvent(e: DepthUpdate)
      modifies this, channel
      ensures var r := DepthRecord(RowsOf(old(front).nextSeq, e));
        && channel.View()
           == (if r.rows == [] then old(channel.View()) else SendTo(old(channel.View()), r, channel.capacity).0)
        && front == DepthFront(old(front), e, SendTo(old(channel.View()), r, channel.capacity).1)
    {
      hide RowsOf;
      front := front.(depthReceived := front.depthReceived + 1);
      var n := NextSeq();
      var rows := RecordDepthRows(n, e);
      if rows == [] { return; }
      var sent := Send(DepthRecord(rows));
      if !sent { front := front.(depthDropped := front.depthDropped + 1); }
    }

    method RecordSnapshot(id: nat, bids: seq<Quote>, asks: seq<Quote>)
      modifies this, channel
      ensures var r := SnapshotRecord(SnapshotRow(old(front).nextSeq, id, Encoded(bids), Encoded(asks)));
        && channel.View() == SendTo(old(channel.View()), r, channel.capacity).0
        && front == SnapshotFront(old(front), SendTo(old(channel.View()), r, channel.capacity).1)
    {
      hide Encoded;
      var n := NextSeq();
      var _ := Send(SnapshotRecord(SnapshotRow(n, id, Encoded(bids), Encoded(asks))));
    }
  }

  /** Some of the allowed attempts is accepted by the storage. */
  ghost predicate SomeAccepted(attempts: nat, accepts: nat -> bool) {
    exists a | 0 <= a < attempts :: accepts(a)
  }

  /** Insert with bounded retries: at most `attempts` tries, none after the first success, and the
      batch comes back unchanged if every one fails. */
  method RetryInsert<T>(batch: seq<T>, attempts: nat, accepts: nat -> bool)
    returns (ok: bool, returned: seq<T>, tries: nat)
    ensures ok == SomeAccepted(attempts, accepts)
    ensures returned == if ok then [] else batch
    ensures tries <= attempts
    ensures forall a | 0 <= a < tries :: accepts(a) <==> ok && a == tries - 1
    ensures !ok ==> tries == attempts
  {
    tries := 0;
    while tries < attempts
      invariant tries <= attempts
      invariant forall a | 0 <= a < tries :: !accepts(a)
      decreases attempts - tries
    {
      tries := tries + 1;
      if accepts(tries - 1) {
        return true, [], tries;
      }
    }
    return false, batch, tries;
  }

  datatype Batches =
    Batches(raw: seq<RawRow>, trades: seq<TradeRow>, depth: seq<LevelRow>, snapshot: Option<SnapshotRow>)

  datatype Tables = Tables(raw: seq<RawRow>, trades: seq<TradeRow>, depth: seq<LevelRow>, snapshots: seq<SnapshotRow>)

  datatype Back = Back(
    pending: Batches,
    tables: Tables,
    rawStored: nat,
    tradesStored: nat,
    depthStored: nat,
    snapshotsStored: nat,
    flushed: nat,
    failed: nat)

  const FreshBack := Back(Batches([], [], [], None), Tables([], [], [], []), 0, 0, 0, 0, 0, 0)

  /** Whether each of the four inserts of a flush succeeds in the end. */
  datatype Outcomes = Outcomes(raw: bool, trades: bool, depth: bool, snapshot: bool)

  function Enqueued(b: Batches, r: Record): Batches {
    match r
    case Raw(row) => b.(raw := b.raw + [row])
    case TradeRecord(row) => b.(trades := b.trades + [row])
    case DepthRecord(rows) => b.(depth := b.depth + rows)
    case SnapshotRecord(row) => b.(snapshot := Some(row))
  }

  predicate ThresholdReached(b: Batches, batchSize: nat) {
    |b.raw| >= batchSize || |b.trades| >= batchSize || |b.depth| >= batchSize
  }

  function RawFlushed(b: Back, ok: bool): Back {
    if b.pending.raw == [] then b
    else if ok then
      b.(pending := b.pending.(raw := []), tables := b.tables.(raw := b.tables.raw + b.pending.raw),
      rawStored := b.rawStored + |b.pending.raw|, flushed := b.flushed + 1)
    else b.(failed := b.failed + 1)
  }

  function TradesFlushed(b: Back, ok: bool): Back {
    if b.pending.trades == [] then b
    else if ok then
      b.(pending := b.pending.(trades := []), tables := b.tables.(trades := b.tables.trades + b.pending.trades),
      tradesStored := b.tradesStored + |b.pending.trades|, flushed := b.flushed + 1)
    else b.(failed := b.failed + 1)
  }

  function DepthFlushed(b: Back, ok: bool): Back {
    if b.pending.depth == [] then b
    else if ok then
      b.(pending := b.pending.(depth := []), tables := b.tables.(depth := b.tables.depth + b.pending.depth),
      depthStored := b.depthStored + |b.pending.depth|, flushed := b.flushed + 1)
    else b.(failed := b.failed + 1)
  }

  function SnapshotFlushed(b: Back, ok: bool): Back {
    if b.pending.snapshot.None? then b
    else if ok then
      b.(pending := b.pending.(snapshot := None),
      tables := b.tables.(snapshots := b.tables.snapshots + [b.pending.snapshot.value]),
      snapshotsStored := b.snapshotsStored + 1, flushed := b.flushed + 1)
    else b.(failed := b.failed + 1)
  }

  function AllFlushed(b: Back, o: Outcomes): Back {
    SnapshotFlushed(DepthFlushed(TradesFlushed(RawFlushed(b, o.raw), o.trades), o.depth), o.snapshot)
  }

  function AllEnqueued(b: Batches, records: seq<Record>): Batches
    decreases |records|
  {
    if records == [] then b else AllEnqueued(Enqueued(b, records[0]), records[1..])
  }

  /** How the storage answers the attempts of one flush. */
  datatype Attempts = Attempts(raw: nat -> bool, trades: nat -> bool, depth: nat -> bool, snapshot: nat -> bool)

  class StorageWorker {
    const channel: Channel
    const batchSize: nat
    const retryAttempts: nat
    var pending: Batches
    var tables: Tables
    var rawStored: nat
    var tradesStored: nat
    var depthStored: nat
    var snapshotsStored: nat
    var flushed: nat
    var failed: nat

    ghost function View(): Back
      reads this
    {
      Back(pending, tables, rawStored, tradesStored, depthStored, snapshotsStored, flushed, failed)
    }

    ghost function OutcomesOf(a: Attempts): Outcomes {
      Outcomes(SomeAccepted(retryAttempts, a.raw), SomeAccepted(retryAttempts, a.trades),
               SomeAccepted(retryAttempts, a.depth), SomeAccepted(retryAttempts, a.snapshot))
    }

    constructor (channel: Channel, batchSize: nat, retryAttempts: nat)
      ensures this.channel == channel && this.batchSize == batchSize && this.retryAttempts == retryAttempts
      ensures View() == FreshBack
    {
      this.channel, this.batchSize, this.retryAttempts := channel, batchSize, retryAttempts;
      pending, tables := Batches([], [], [], None), Tables([], [], [], []);
      rawStored, tradesStored, depthStored, snapshotsStored, flushed, failed := 0, 0, 0, 0, 0, 0;
    }

    method Enqueue(r: Record)
      modifies this`pending
      ensures pending == Enqueued(old(pending), r)
    {
      match r {
        case Raw(row) => pending := pending.(raw := pending.raw + [row]);
        case TradeRecord(row) => pending := pending.(trades := pending.trades + [row]);
        case DepthRecord(rows) => pending := pending.(depth := pending.depth + rows);
        case SnapshotRecord(row) => pending := pending.(snapshot := Some(row));
      }
    }

    method FlushRaw(accepts: nat -> bool)
      modifies this
      ensures View() == RawFlushed(old(View()), SomeAccepted(retryAttempts, accepts))
    {
      if pending.raw == [] { return; }
      var batch := pending.raw;
      pending := pending.(raw := []);
      var ok, returned, _ := RetryInsert(batch, retryAttempts, accepts);
      if ok {
        tables := tables.(raw := tables.raw + batch);
        flushed := flushed + 1;
        rawStored := rawStored + |batch|;
      } else {
        pending := pending.(raw := pending.raw + returned);
        failed := failed + 1;
      }
    }

    method FlushTrades(accepts: nat -> bool)
      modifies this
      ensures View() == TradesFlushed(old(View()), SomeAccepted(retryAttempts, accepts))
    {
      if pending.trades == [] { return; }
      var batch := pending.trades;
      pending := pending.(trades := []);
      var ok, returned, _ := RetryInsert(batch, retryAttempts, accepts);
      if ok {
        tables := tables.(trades := tables.trades + batch);
        flushed := flushed + 1;
        tradesStored := tradesStored + |batch|;
      } else {
        pending := pending.(trades := pending.trades + returned);
        failed := failed + 1;
      }
    }

    method FlushDepth(accepts: nat -> bool)
      modifies this
      ensures View() == DepthFlushed(old(View()), SomeAccepted(retryAttempts, accepts))
    {
      if pending.depth == [] { return; }
      var batch := pending.depth;
      pending := pending.(depth := []);
      var ok, returned, _ := RetryInsert(batch, retryAttempts, accepts);
      if ok {
        tables := tables.(depth := tables.depth + batch);
        flushed := flushed + 1;
        depthStored := depthStored + |batch|;
      } else {
        pending := pending.(depth := pending.depth + returned);
        failed := failed + 1;
      }
    }

    method FlushSnapshot(accepts: nat -> bool)
      modifies this
      ensures View() == SnapshotFlushed(old(View()), SomeAccepted(retryAttempts, accepts))
    {
      if pending.snapshot.None? { return; }
      var snapshot := pending.snapshot.value;
      pending := pending.(snapshot := None);
      var ok, returned, _ := RetryInsert([snapshot], retryAttempts, accepts);
      if ok {
        tables := tables.(snapshots := tables.snapshots + [snapshot]);
        flushed := flushed + 1;
        snapshotsStored := snapshotsStored + 1;
      } else {
        pending := pending.(snapshot := Some(returned[0]));
        failed := failed + 1;
      }
    }

    method FlushAll(a: Attempts)
      modifies this
      ensures View() == AllFlushed(old(View()), OutcomesOf(a))
    {
      hide RawFlushed, TradesFlushed, DepthFlushed, SnapshotFlushed, SomeAccepted;
      FlushRaw(a.raw);
      FlushTrades(a.trades);
      FlushDepth(a.depth);
      FlushSnapshot(a.snapshot);
    }

    /** A record arrives: keep it, and flush if a batch is full. */
    method OnRecord(a: Attempts)
      requires channel.records != []
      modifies this, channel
      ensures channel.View() == old(channel.View()).(records := old(channel.records)[1..])
      ensures View() == AfterRecord(old(View()), old(channel.records)[0], batchSize, OutcomesOf(a))
    {
      hide AllFlushed, SomeAccepted;
      var r := channel.TryReceive();
      Enqueue(r.value);
      if ThresholdReached(pending, batchSize) {
        FlushAll(a);
      }
    }

    /** Shutdown takes everything out of the queue first. */
    method Drain()
      modifies this, channel
      ensures channel.View() == old(channel.View()).(records := [])
      ensures View() == old(View()).(pending := AllEnqueued(old(pending), old(channel.records)))
    {
      while channel.records != []
        invariant channel.View() == old(channel.View()).(records := channel.records)
        invariant View() == old(View()).(pending := pending)
        invariant AllEnqueued(pending, channel.records) == AllEnqueued(old(pending), old(channel.records))
        decreases |channel.records|
      {
        var r := channel.TryReceive();
        Enqueue(r.value);
      }
    }

    /** The last flush, after which the worker and its end of the channel are gone. */
    method Finish(a: Attempts)
      modifies this, channel
      ensures channel.View() == old(channel.View()).(closed := true)
      ensures View() == AllFlushed(old(View()), OutcomesOf(a))
    {
      FlushAll(a);
      channel.Close();
    }
  }

  function AfterRecord(b: Back, r: Record, batchSize: nat, o: Outcomes): Back {
    var next := b.(pending := Enqueued(b.pending, r));
    if ThresholdReached(next.pending, batchSize) then AllFlushed(next, o) else next
  }
}
