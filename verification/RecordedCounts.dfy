/** The counters of a recording, and when its worker flushes. */
module RecordedCounts {
  import opened Recording
  import opened RecordingRuns
  import opened Rows
  import opened Wire

  /** Calls of the recorder by kind, those that find the queue full, and events without a level to record. */
  datatype Calls = Calls(raw: nat, trades: nat, depth: nat, snapshots: nat, full: nat, empty: nat)

  function Counted1(b: bool): nat {
    if b then 1 else 0
  }

  function CallsIn(steps: seq<Step>, cfg: Settings, n: nat): Calls
    requires n <= |steps|
  {
    if n == 0 then Calls(0, 0, 0, 0, 0, 0)
    else
      CalledBy(CallsIn(steps, cfg, n - 1), Run(steps, cfg, n - 1), steps[n - 1], cfg)
  }

  function CalledBy(c: Calls, s: System, x: Step, cfg: Settings): Calls {
    var recorded := x.RawIn? || x.TradeIn? || x.SnapshotIn? || (x.DepthIn? && RowsOf(0, x.update) != []);
    Calls(c.raw + Counted1(x.RawIn?), c.trades + Counted1(x.TradeIn?), c.depth + Counted1(x.DepthIn?),
          c.snapshots + Counted1(x.SnapshotIn?),
          c.full + Counted1(recorded && !s.queue.closed && |s.queue.records| >= cfg.capacity),
          c.empty + Counted1(x.DepthIn? && RowsOf(0, x.update) == []))
  }

  /** Accepted depth events. */
  function EventsIn(records: seq<Record>): nat {
    if records == [] then 0
    else EventsIn(records[..|records| - 1]) + Counted1(records[|records| - 1].DepthRecord?)
  }

  lemma EventsAppend(records: seq<Record>, more: seq<Record>)
    requires |more| <= 1
    ensures EventsIn(records + more) == EventsIn(records) + (if more == [] then 0 else Counted1(more[0].DepthRecord?))
  {
    if more == [] {
      assert records + more == records;
    } else {
      assert (records + more)[..|records|] == records;
    }
  }

  ghost predicate Tallies(f: Front, c: Calls, events: nat) {
    && f.rawReceived == c.raw && f.tradesReceived == c.trades && f.depthReceived == c.depth
    && f.nextSeq == 1 + c.raw + c.trades + c.depth + c.snapshots
    && f.overflows == c.full
    && f.depthReceived == events + f.depthDropped + c.empty
  }

  lemma SameRowCount(a: nat, b: nat, e: DepthUpdate)
    ensures RowsOf(a, e) == [] <==> RowsOf(b, e) == []
  {
    hide Encoded, RowOf;
    assert |RowsOf(a, e)| == |RowsOf(b, e)|;
  }

  lemma StepTallies(s: System, x: Step, cfg: Settings, c: Calls, events: nat)
    requires Tallies(s.front, c, events)
    ensures var accepted := Accepted(s, x, cfg);
      |accepted| <= 1
      && Tallies(Next(s, x, cfg).front, CalledBy(c, s, x, cfg),
                 events + if accepted == [] then 0 else Counted1(accepted[0].DepthRecord?))
  {
    hide RowsOf, Encoded, AllFlushed, AllEnqueued;
    if x.DepthIn? { SameRowCount(0, s.front.nextSeq, x.update); }
  }

  /** Over every run: received counters are the calls by kind, numbers are handed out one a call, an overflow is a
      record that found the queue full, and a depth event is accepted, dropped, or has no level to record. */
  lemma {:induction false} CountersCountCalls(steps: seq<Step>, cfg: Settings, n: nat)
    requires n <= |steps|
    ensures Tallies(Run(steps, cfg, n).front, CallsIn(steps, cfg, n), EventsIn(Log(steps, cfg, n)))
  {
    hide Next, Accepted, Tallies, CalledBy, EventsIn, Run, Log, CallsIn;
    if n == 0 {
      NothingTallied(steps, cfg);
    } else {
      CountersCountCalls(steps, cfg, n - 1);
      OneMoreCall(steps, cfg, n - 1);
      CallTallied(Run(steps, cfg, n - 1), Log(steps, cfg, n - 1), steps[n - 1], cfg, CallsIn(steps, cfg, n - 1));
    }
  }

  lemma OneMoreCall(steps: seq<Step>, cfg: Settings, n: nat)
    requires n < |steps|
    ensures Run(steps, cfg, n + 1) == Next(Run(steps, cfg, n), steps[n], cfg)
    ensures Log(steps, cfg, n + 1) == Log(steps, cfg, n) + Accepted(Run(steps, cfg, n), steps[n], cfg)
    ensures CallsIn(steps, cfg, n + 1) == CalledBy(CallsIn(steps, cfg, n), Run(steps, cfg, n), steps[n], cfg)
  {
    hide Next, Accepted, CalledBy;
  }

  lemma CallTallied(s: System, log: seq<Record>, x: Step, cfg: Settings, c: Calls)
    requires Tallies(s.front, c, EventsIn(log))
    ensures Tallies(Next(s, x, cfg).front, CalledBy(c, s, x, cfg), EventsIn(log + Accepted(s, x, cfg)))
  {
    hide Next, Accepted, Tallies, CalledBy;
    StepTallies(s, x, cfg, c, EventsIn(log));
    EventsAppend(log, Accepted(s, x, cfg));
  }

  lemma NothingTallied(steps: seq<Step>, cfg: Settings)
    ensures Tallies(Run(steps, cfg, 0).front, CallsIn(steps, cfg, 0), EventsIn(Log(steps, cfg, 0)))
  {
  }

  /** A flush tries every batch that is not empty, and counts it as flushed or as failed. */
  lemma FlushCountsBatches(b: Back, o: Outcomes)
    ensures var r, p := AllFlushed(b, o), b.pending;
      && r.flushed == b.flushed + Counted1(p.raw != [] && o.raw) + Counted1(p.trades != [] && o.trades)
                      + Counted1(p.depth != [] && o.depth) + Counted1(p.snapshot.Some? && o.snapshot)
      && r.failed == b.failed + Counted1(p.raw != [] && !o.raw) + Counted1(p.trades != [] && !o.trades)
                     + Counted1(p.depth != [] && !o.depth) + Counted1(p.snapshot.Some? && !o.snapshot)
  {
    hide RawFlushed, TradesFlushed, DepthFlushed, SnapshotFlushed;
    var r := RawFlushed(b, o.raw);
    var t := TradesFlushed(r, o.trades);
    var d := DepthFlushed(t, o.depth);
    FlushCountsRaw(b, o.raw);
    FlushCountsTrades(r, o.trades);
    FlushCountsDepth(t, o.depth);
    FlushCountsSnapshot(d, o.snapshot);
  }

  lemma FlushCountsRaw(b: Back, ok: bool)
    ensures var r, any := RawFlushed(b, ok), b.pending.raw != [];
      && r.pending == b.pending.(raw := r.pending.raw)
      && r.flushed == b.flushed + Counted1(any && ok) && r.failed == b.failed + Counted1(any && !ok)
  {
  }

  lemma FlushCountsTrades(b: Back, ok: bool)
    ensures var r, any := TradesFlushed(b, ok), b.pending.trades != [];
      && r.pending == b.pending.(trades := r.pending.trades)
      && r.flushed == b.flushed + Counted1(any && ok) && r.failed == b.failed + Counted1(any && !ok)
  {
  }

  lemma FlushCountsDepth(b: Back, ok: bool)
    ensures var r, any := DepthFlushed(b, ok), b.pending.depth != [];
      && r.pending == b.pending.(depth := r.pending.depth)
      && r.flushed == b.flushed + Counted1(any && ok) && r.failed == b.failed + Counted1(any && !ok)
  {
  }

  lemma FlushCountsSnapshot(b: Back, ok: bool)
    ensures var r, any := SnapshotFlushed(b, ok), b.pending.snapshot.Some?;
      r.flushed == b.flushed + Counted1(any && ok) && r.failed == b.failed + Counted1(any && !ok)
  {
  }

  /** Rows that a record adds to the batches. */
  function AddedBy(r: Record): (nat, nat, nat) {
    (Counted1(r.Raw?), Counted1(r.TradeRecord?), if r.DepthRecord? then |r.rows| else 0)
  }

  /** A received record makes the worker flush if and only if with it one of the three row batches reaches the
      batch size; otherwise it only waits. */
  lemma ReceiveFlushesExactly(s: System, o: Outcomes, cfg: Settings)
    requires !s.finishing && s.queue.records != []
    ensures var r, p, next := s.queue.records[0], s.back.pending, Next(s, ReceiveOne(o), cfg);
      var (raw, trades, depth) := AddedBy(r);
      var waiting := s.back.(pending := Enqueued(p, r));
      next.back == if |p.raw| + raw >= cfg.batchSize || |p.trades| + trades >= cfg.batchSize
                      || |p.depth| + depth >= cfg.batchSize
                   then AllFlushed(waiting, o) else waiting
  {
    hide AllFlushed;
  }

  /** Until the queue is drained no row batch reaches the batch size, if the inserts succeed. */
  ghost predicate Small(b: Batches, batchSize: nat) {
    |b.raw| < batchSize && |b.trades| < batchSize && |b.depth| < batchSize
  }

  predicate Succeeds(x: Step) {
    match x
    case ReceiveOne(o) => o.raw && o.trades && o.depth
    case TickDue(o) => o.raw && o.trades && o.depth
    case _ => true
  }

  lemma FlushEmpties(b: Back, o: Outcomes)
    requires o.raw && o.trades && o.depth
    ensures var p := AllFlushed(b, o).pending; p.raw == [] && p.trades == [] && p.depth == []
  {
    FlushKeepsHeld(b, o);
  }

  lemma {:induction false} BatchesStaySmall(steps: seq<Step>, cfg: Settings, n: nat)
    requires n <= |steps| && cfg.batchSize > 0
    requires forall i | 0 <= i < n :: Succeeds(steps[i])
    ensures !Run(steps, cfg, n).finishing ==> Small(Run(steps, cfg, n).back.pending, cfg.batchSize)
  {
    hide AllFlushed, Offer, FrontAfter, AllEnqueued, Enqueued;
    if n > 0 {
      BatchesStaySmall(steps, cfg, n - 1);
      var s, x := Run(steps, cfg, n - 1), steps[n - 1];
      assert Succeeds(x);
      match x {
        case ReceiveOne(o) =>
          if !s.finishing && s.queue.records != [] {
            FlushEmpties(s.back.(pending := Enqueued(s.back.pending, s.queue.records[0])), o);
          }
        case TickDue(o) => FlushEmpties(s.back, o);
        case _ =>
      }
    }
  }
}
