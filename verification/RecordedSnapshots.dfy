/** Snapshot rows on their way to the storage: only the newest pending one is kept. */
module RecordedSnapshots {
  import opened Recording
  import opened RecordingRuns
  import opened Rows

  function SnapshotOf(r: Record): seq<SnapshotRow> {
    if r.SnapshotRecord? then [r.snapshot] else []
  }

  function SnapshotsOf(records: seq<Record>): seq<SnapshotRow> {
    if records == [] then [] else SnapshotOf(records[0]) + SnapshotsOf(records[1..])
  }

  function Pending(b: Batches): seq<SnapshotRow> {
    if b.snapshot.None? then [] else [b.snapshot.value]
  }

  /** Stored, then pending, then queued. */
  function InSystem(s: System): seq<SnapshotRow> {
    s.back.tables.snapshots + Pending(s.back.pending) + SnapshotsOf(s.queue.records)
  }

  /** Pending snapshots that the record replaces. */
  function Replaces(b: Batches, r: Record): nat {
    if r.SnapshotRecord? && b.snapshot.Some? then 1 else 0
  }

  function ReplacedIn(b: Batches, records: seq<Record>): nat
    decreases |records|
  {
    if records == [] then 0 else Replaces(b, records[0]) + ReplacedIn(Enqueued(b, records[0]), records[1..])
  }

  /** Snapshots overwritten in one step: by a receive or by the drain. */
  function Overwritten(s: System, x: Step): nat {
    match x
    case ReceiveOne(_) =>
      if s.finishing || s.queue.records == [] then 0 else Replaces(s.back.pending, s.queue.records[0])
    case DrainQueue => if s.finishing then 0 else ReplacedIn(s.back.pending, s.queue.records)
    case _ => 0
  }

  /** Snapshots overwritten in the first `n` steps. */
  function Overwrites(steps: seq<Step>, cfg: Settings, n: nat): nat
    requires n <= |steps|
  {
    if n == 0 then 0 else Overwrites(steps, cfg, n - 1) + Overwritten(Run(steps, cfg, n - 1), steps[n - 1])
  }

  lemma {:induction false} SnapshotsConcat(a: seq<Record>, b: seq<Record>)
    ensures SnapshotsOf(a + b) == SnapshotsOf(a) + SnapshotsOf(b)
    decreases |a|
  {
    hide SnapshotOf;
    if a == [] {
      assert a + b == b;
    } else {
      assert (a + b)[1..] == a[1..] + b;
      SnapshotsConcat(a[1..], b);
    }
  }

  lemma SnapshotsSingle(r: Record)
    ensures SnapshotsOf([r]) == SnapshotOf(r)
  {
    assert [r][1..] == [];
  }

  /** Writing a record behind stored rows: nothing else happens, or one row is lost. */
  lemma EnqueuedSnapshot(b: Batches, r: Record)
    ensures Replaces(b, r) == 0 ==> Pending(Enqueued(b, r)) == Pending(b) + SnapshotOf(r)
    ensures |Pending(Enqueued(b, r))| + Replaces(b, r) == |Pending(b)| + |SnapshotOf(r)|
  {
  }

  lemma {:induction false} AllEnqueuedSnapshots(b: Batches, records: seq<Record>)
    ensures ReplacedIn(b, records) == 0 ==> Pending(AllEnqueued(b, records)) == Pending(b) + SnapshotsOf(records)
    ensures |Pending(AllEnqueued(b, records))| + ReplacedIn(b, records) == |Pending(b)| + |SnapshotsOf(records)|
    decreases |records|
  {
    hide Enqueued, Pending, SnapshotOf, Replaces;
    if records != [] {
      EnqueuedSnapshot(b, records[0]);
      AllEnqueuedSnapshots(Enqueued(b, records[0]), records[1..]);
    }
  }

  lemma FlushKeepsSnapshots(b: Back, o: Outcomes)
    ensures var after := AllFlushed(b, o);
      && after.tables.snapshots + Pending(after.pending) == b.tables.snapshots + Pending(b.pending)
      && (o.snapshot ==> Pending(after.pending) == [])
  {
    var r := RawFlushed(b, o.raw);
    assert r.tables.snapshots == b.tables.snapshots && r.pending.snapshot == b.pending.snapshot;
    var t := TradesFlushed(r, o.trades);
    assert t.tables.snapshots == b.tables.snapshots && t.pending.snapshot == b.pending.snapshot;
    var d := DepthFlushed(t, o.depth);
    assert d.tables.snapshots == b.tables.snapshots && d.pending.snapshot == b.pending.snapshot;
  }

  /** What was accepted is in the system, except for what was overwritten. */
  ghost predicate Kept(s: System, log: seq<Record>, overwritten: nat) {
    && |SnapshotsOf(log)| == |InSystem(s)| + overwritten
    && (overwritten == 0 ==> SnapshotsOf(log) == InSystem(s))
  }

  lemma ReceiveKept(s: System, log: seq<Record>, overwritten: nat, o: Outcomes, cfg: Settings)
    requires Kept(s, log, overwritten)
    ensures Kept(Next(s, ReceiveOne(o), cfg), log, overwritten + Overwritten(s, ReceiveOne(o)))
  {
    hide AllFlushed, Enqueued, SnapshotsOf, Pending, SnapshotOf, Replaces;
    if !s.finishing && s.queue.records != [] {
      var r, rest := s.queue.records[0], s.queue.records[1..];
      assert s.queue.records == [r] + rest;
      SnapshotsConcat([r], rest);
      SnapshotsSingle(r);
      EnqueuedSnapshot(s.back.pending, r);
      FlushKeepsSnapshots(s.back.(pending := Enqueued(s.back.pending, r)), o);
    }
  }

  lemma DrainKept(s: System, log: seq<Record>, overwritten: nat, cfg: Settings)
    requires Kept(s, log, overwritten)
    ensures Kept(Next(s, DrainQueue, cfg), log, overwritten + Overwritten(s, DrainQueue))
  {
    hide AllEnqueued, Pending, ReplacedIn;
    AllEnqueuedSnapshots(s.back.pending, s.queue.records);
    assert SnapshotsOf([]) == [];
  }

  lemma CallKept(s: System, log: seq<Record>, overwritten: nat, x: Step, cfg: Settings)
    requires Kept(s, log, overwritten) && FromRecorder(x)
    ensures Kept(Next(s, x, cfg), log + Accepted(s, x, cfg), overwritten)
  {
    hide Offer, FrontAfter, SnapshotsOf, Pending;
    var accepted := Accepted(s, x, cfg);
    SnapshotsConcat(log, accepted);
    SnapshotsConcat(s.queue.records, accepted);
    assert log + [] == log && s.queue.records + [] == s.queue.records;
    assert Next(s, x, cfg).queue.records == s.queue.records + accepted;
  }

  lemma StepKept(s: System, log: seq<Record>, overwritten: nat, x: Step, cfg: Settings)
    requires Kept(s, log, overwritten)
    ensures Kept(Next(s, x, cfg), log + Accepted(s, x, cfg), overwritten + Overwritten(s, x))
  {
    hide AllFlushed, AllEnqueued, SnapshotsOf, Pending, ReplacedIn;
    if FromRecorder(x) {
      CallKept(s, log, overwritten, x, cfg);
    } else {
      assert log + Accepted(s, x, cfg) == log;
      match x {
        case ReceiveOne(o) => ReceiveKept(s, log, overwritten, o, cfg);
        case TickDue(o) => FlushKeepsSnapshots(s.back, o);
        case DrainQueue => DrainKept(s, log, overwritten, cfg);
        case LastFlush(o) => FlushKeepsSnapshots(s.back, o);
      }
    }
  }

  lemma {:induction false} RunKept(steps: seq<Step>, cfg: Settings, n: nat)
    requires n <= |steps|
    ensures Kept(Run(steps, cfg, n), Log(steps, cfg, n), Overwrites(steps, cfg, n))
  {
    hide Next, Accepted, Overwritten, Kept;
    if n == 0 {
      NothingKept();
    } else {
      RunKept(steps, cfg, n - 1);
      StepKept(Run(steps, cfg, n - 1), Log(steps, cfg, n - 1), Overwrites(steps, cfg, n - 1), steps[n - 1], cfg);
    }
  }

  lemma NothingKept()
    ensures Kept(Initial, [], 0)
  {
  }

  /** Under every interleaving and any insert failures: accepted snapshots are stored ++ pending ++ queued if
      and only if none was enqueued, by a receive or by the drain, while another was pending; otherwise
      exactly as many are missing as were overwritten. */
  lemma SnapshotsConservedExactly(steps: seq<Step>, cfg: Settings, n: nat)
    requires n <= |steps|
    ensures SnapshotsOf(Log(steps, cfg, n)) == InSystem(Run(steps, cfg, n)) <==> Overwrites(steps, cfg, n) == 0
    ensures |SnapshotsOf(Log(steps, cfg, n))| == |InSystem(Run(steps, cfg, n))| + Overwrites(steps, cfg, n)
  {
    RunKept(steps, cfg, n);
  }

  /** Two snapshots are recorded and received before anything is flushed. */
  function TwoSnapshots(o: Outcomes): seq<Step> {
    [SnapshotIn(1, [], []), SnapshotIn(2, [], []), ReceiveOne(o), ReceiveOne(o)]
  }

  /** Then the first one is lost, whatever the storage does, unless every record is flushed at once. */
  lemma PendingSnapshotIsLost(cfg: Settings, o: Outcomes)
    requires cfg.capacity >= 2 && cfg.batchSize >= 1
    ensures var s := Run(TwoSnapshots(o), cfg, 4);
      && Overwrites(TwoSnapshots(o), cfg, 4) == 1
      && s.queue.records == [] && s.back.tables.snapshots == []
      && s.back.pending.snapshot.Some? && s.back.pending.snapshot.value.updateId == 2
      && |SnapshotsOf(Log(TwoSnapshots(o), cfg, 4))| == 2
  {
    hide Run, Next, Log, SnapshotsOf, Overwrites, Overwritten, AfterRecord;
    var steps := TwoSnapshots(o);
    BothQueued(cfg, o);
    BothReceived(cfg, o);
    RunKept(steps, cfg, 4);
    var s := Run(steps, cfg, 4);
    assert SnapshotsOf(s.queue.records) == [] by { NoSnapshots(); }
  }

  lemma BothQueued(cfg: Settings, o: Outcomes)
    requires cfg.capacity >= 2
    ensures var s := Run(TwoSnapshots(o), cfg, 2);
      && s.back == FreshBack && !s.finishing
      && |s.queue.records| == 2 && s.queue.records[0].SnapshotRecord? && s.queue.records[1].SnapshotRecord?
      && s.queue.records[1].snapshot.updateId == 2
    ensures Overwrites(TwoSnapshots(o), cfg, 2) == 0
  {
    hide AfterRecord, AllEnqueued, AllFlushed, ReplacedIn, Encoded, RowsOf;
    var steps := TwoSnapshots(o);
    assert Run(steps, cfg, 1) == Next(Initial, steps[0], cfg);
    assert Overwrites(steps, cfg, 1) == 0;
  }

  lemma BothReceived(cfg: Settings, o: Outcomes)
    requires cfg.capacity >= 2 && cfg.batchSize >= 1
    ensures var s := Run(TwoSnapshots(o), cfg, 4);
      && Overwrites(TwoSnapshots(o), cfg, 4) == 1 && s.queue.records == [] && s.back.tables.snapshots == []
      && s.back.pending.snapshot.Some? && s.back.pending.snapshot.value.updateId == 2
  {
    hide AllEnqueued, AllFlushed, ReplacedIn, Encoded, RowsOf, Run, Overwrites;
    var steps := TwoSnapshots(o);
    BothQueued(cfg, o);
    RunStep(steps, cfg, 2);
    RunStep(steps, cfg, 3);
    OverwritesStep(steps, cfg, 2);
    OverwritesStep(steps, cfg, 3);
  }

  lemma OverwritesStep(steps: seq<Step>, cfg: Settings, n: nat)
    requires n < |steps|
    ensures Overwrites(steps, cfg, n + 1) == Overwrites(steps, cfg, n) + Overwritten(Run(steps, cfg, n), steps[n])
  {
  }

  /** A shutdown whose last snapshot insert succeeds leaves in the table exactly the snapshots accepted when
      the queue was drained, if and only if none was overwritten until then. */
  lemma ShutdownStoresSnapshots(steps: seq<Step>, cfg: Settings, i: nat, j: nat, k: nat)
    requires i < j < k <= |steps|
    requires steps[i].DrainQueue? && !Run(steps, cfg, i).finishing
    requires forall x | i < x < j :: !steps[x].LastFlush?
    requires steps[j].LastFlush? && steps[j].outcomes.snapshot
    ensures Run(steps, cfg, k).back.tables.snapshots == SnapshotsOf(Log(steps, cfg, i + 1))
            <==> Overwrites(steps, cfg, i + 1) == 0
    ensures |SnapshotsOf(Log(steps, cfg, i + 1))|
         == |Run(steps, cfg, k).back.tables.snapshots| + Overwrites(steps, cfg, i + 1)
  {
    hide AllEnqueued, AllFlushed, SnapshotsOf, Run, Overwrites, Pending, Log;
    OpenUntilFinished(steps, cfg, i);
    RunStep(steps, cfg, i);
    RunStep(steps, cfg, j);
    RunKept(steps, cfg, i + 1);
    NoSnapshots();
    DrainedUntilLastFlush(steps, cfg, i, j);
    FlushKeepsSnapshots(Run(steps, cfg, j).back, steps[j].outcomes);
    NothingAfterLastFlush(steps, cfg, j + 1, k);
  }

  lemma NoSnapshots()
    ensures SnapshotsOf([]) == []
  {
  }
}
