/** What a shutdown of the recording stores of everything that was accepted. */
module RecordedShutdowns {
  import opened Recording
  import opened RecordedSnapshots
  import opened RecordingRuns
  import opened Rows

  /** A shutdown: the queue is drained by step `i` and the batches are flushed for the last time by `j`. */
  ghost predicate ShutsDown(steps: seq<Step>, cfg: Settings, i: nat, j: nat) {
    && i < j < |steps|
    && steps[i].DrainQueue? && !Run(steps, cfg, i).finishing
    && (forall x | i < x < j :: !steps[x].LastFlush?)
    && steps[j].LastFlush?
  }

  /** What was accepted in the steps from `first` up to `last`. */
  function Between(steps: seq<Step>, cfg: Settings, first: nat, last: nat): seq<Record>
    requires first <= last <= |steps|
  {
    if last == first then []
    else Between(steps, cfg, first, last - 1) + Accepted(Run(steps, cfg, last - 1), steps[last - 1], cfg)
  }

  lemma {:induction false} LogContinues(steps: seq<Step>, cfg: Settings, first: nat, last: nat)
    requires first <= last <= |steps|
    ensures Log(steps, cfg, last) == Log(steps, cfg, first) + Between(steps, cfg, first, last)
    decreases last
  {
    hide Accepted, Run;
    if last > first { LogContinues(steps, cfg, first, last - 1); }
  }

  lemma {:induction false} ClosedTakesNothing(steps: seq<Step>, cfg: Settings, first: nat, last: nat)
    requires first <= last <= |steps| && Run(steps, cfg, first).finishing && Run(steps, cfg, first).queue.closed
    ensures Between(steps, cfg, first, last) == []
    decreases last
  {
    hide Run, Offer;
    if last > first {
      ClosedTakesNothing(steps, cfg, first, last - 1);
      NothingAfterLastFlush(steps, cfg, first, last - 1);
    }
  }

  lemma FlushCloses(steps: seq<Step>, cfg: Settings, i: nat, j: nat)
    requires ShutsDown(steps, cfg, i, j)
    ensures Run(steps, cfg, j + 1).finishing && Run(steps, cfg, j + 1).queue.closed
    ensures Log(steps, cfg, j + 1) == Log(steps, cfg, j)
  {
    hide AllFlushed, Run;
    OpenUntilFinished(steps, cfg, i);
    DrainedUntilLastFlush(steps, cfg, i, j);
    RunStep(steps, cfg, j);
  }

  /** After the drain nothing is accepted but what comes before the last flush. */
  lemma AcceptedInAll(steps: seq<Step>, cfg: Settings, i: nat, j: nat, k: nat)
    requires ShutsDown(steps, cfg, i, j) && j < k <= |steps|
    ensures Log(steps, cfg, k) == Log(steps, cfg, i + 1) + Between(steps, cfg, i + 1, j)
  {
    hide Run, Between, Log, Next, Accepted;
    FlushCloses(steps, cfg, i, j);
    LogContinues(steps, cfg, i + 1, j);
    LogContinues(steps, cfg, j + 1, k);
    ClosedTakesNothing(steps, cfg, j + 1, k);
  }

  /** Nothing that the storage keeps is among these records. */
  predicate NoRowsIn(records: seq<Record>) {
    StreamsOf(records) == Streams([], [], [])
  }

  lemma {:induction false} NoRowsBetween(steps: seq<Step>, cfg: Settings, first: nat, last: nat)
    requires first <= last <= |steps|
    ensures NoRowsIn(Between(steps, cfg, first, last))
       <==> forall x | first <= x < last :: NoRowsIn(Accepted(Run(steps, cfg, x), steps[x], cfg))
    decreases last
  {
    hide Accepted, Run, StreamsOf;
    if last == first {
      NoRecordsNoRows();
    } else {
      NoRowsBetween(steps, cfg, first, last - 1);
      StreamsConcat(Between(steps, cfg, first, last - 1), Accepted(Run(steps, cfg, last - 1), steps[last - 1], cfg));
    }
  }

  lemma NoRecordsNoRows()
    ensures NoRowsIn([])
  {
  }

  /** A shutdown whose last inserts succeed, against everything that was ever accepted: the rows accepted
      between the drain and the last flush are missing from the tables, and no others. So it stores everything
      if and only if no step in between had a row accepted. */
  lemma ShutdownStoresAllExactly(steps: seq<Step>, cfg: Settings, i: nat, j: nat, k: nat)
    requires ShutsDown(steps, cfg, i, j) && j < k <= |steps|
    requires steps[j].outcomes.raw && steps[j].outcomes.trades && steps[j].outcomes.depth
    ensures StreamsOf(Log(steps, cfg, k))
         == Joined(InTables(Run(steps, cfg, k).back.tables), StreamsOf(Between(steps, cfg, i + 1, j)))
    ensures InTables(Run(steps, cfg, k).back.tables) == StreamsOf(Log(steps, cfg, k))
       <==> forall x | i < x < j :: NoRowsIn(Accepted(Run(steps, cfg, x), steps[x], cfg))
  {
    hide Run, Log, Between, StreamsOf, Accepted;
    AcceptedInAll(steps, cfg, i, j, k);
    ShutdownStoresWhatWasDrained(steps, cfg, i, j, k);
    StreamsConcat(Log(steps, cfg, i + 1), Between(steps, cfg, i + 1, j));
    NoRowsBetween(steps, cfg, i + 1, j);
    JoinedIsFirst(InTables(Run(steps, cfg, k).back.tables), StreamsOf(Between(steps, cfg, i + 1, j)));
  }

  lemma JoinedIsFirst(a: Streams, b: Streams)
    ensures Joined(a, b) == a <==> b == Streams([], [], [])
  {
    var c := Joined(a, b);
    assert |c.raw| == |a.raw| + |b.raw| && |c.trades| == |a.trades| + |b.trades| && |c.depth| == |a.depth| + |b.depth|;
  }

  lemma {:induction false} NoSnapshotsBetween(steps: seq<Step>, cfg: Settings, first: nat, last: nat)
    requires first <= last <= |steps|
    ensures SnapshotsOf(Between(steps, cfg, first, last)) == []
       <==> forall x | first <= x < last :: SnapshotsOf(Accepted(Run(steps, cfg, x), steps[x], cfg)) == []
    decreases last
  {
    hide Accepted, Run, SnapshotsOf;
    if last == first {
      NoSnapshots();
    } else {
      NoSnapshotsBetween(steps, cfg, first, last - 1);
      SnapshotsConcat(Between(steps, cfg, first, last - 1), Accepted(Run(steps, cfg, last - 1), steps[last - 1], cfg));
    }
  }

  /** Snapshots against everything that was ever accepted: all are stored if and only if none was overwritten
      up to the drain and none was accepted between it and the last flush. */
  lemma ShutdownStoresAllSnapshotsExactly(steps: seq<Step>, cfg: Settings, i: nat, j: nat, k: nat)
    requires ShutsDown(steps, cfg, i, j) && j < k <= |steps| && steps[j].outcomes.snapshot
    ensures Run(steps, cfg, k).back.tables.snapshots == SnapshotsOf(Log(steps, cfg, k))
       <==> (Overwrites(steps, cfg, i + 1) == 0
             && forall x | i < x < j :: SnapshotsOf(Accepted(Run(steps, cfg, x), steps[x], cfg)) == [])
    ensures |SnapshotsOf(Log(steps, cfg, k))|
         == |Run(steps, cfg, k).back.tables.snapshots| + Overwrites(steps, cfg, i + 1)
            + |SnapshotsOf(Between(steps, cfg, i + 1, j))|
  {
    hide Run, Log, Between, SnapshotsOf, Accepted, Overwrites;
    AcceptedInAll(steps, cfg, i, j, k);
    ShutdownStoresSnapshots(steps, cfg, i, j, k);
    SnapshotsConcat(Log(steps, cfg, i + 1), Between(steps, cfg, i + 1, j));
    NoSnapshotsBetween(steps, cfg, i + 1, j);
  }

  /** The recorder is called once while the worker is between the drain and the last flush, whose inserts
      all succeed. */
  function CalledLate(x: Step): seq<Step> {
    [DrainQueue, x, LastFlush(Outcomes(true, true, true, true))]
  }

  lemma LateCall(cfg: Settings, x: Step)
    requires cfg.capacity >= 1 && FromRecorder(x) && Offer(Initial, x).Some?
    ensures var s := Run(CalledLate(x), cfg, 3);
      && s.back.tables == FreshBack.tables && s.front == FrontAfter(FreshFront, x, Sent)
      && s.queue.records == [Offer(Initial, x).value]
    ensures ShutsDown(CalledLate(x), cfg, 0, 2) && Log(CalledLate(x), cfg, 3) == [Offer(Initial, x).value]
  {
    hide Offer, FrontAfter, AllFlushed, Log, Run, Accepted;
    var steps, drained := CalledLate(x), Initial.(finishing := true);
    FirstStates(steps, cfg);
    OfferIgnores(drained, x);
    TakesLate(drained, x, cfg);
    AcceptedLate(steps, cfg);
    FlushedEmpty(FreshBack, steps[2].outcomes);
  }

  lemma TakesLate(s: System, x: Step, cfg: Settings)
    requires cfg.capacity >= 1 && s == Initial.(finishing := true) && FromRecorder(x) && Offer(s, x).Some?
    ensures Accepted(s, x, cfg) == [Offer(s, x).value]
    ensures Next(s, x, cfg)
         == s.(front := FrontAfter(FreshFront, x, Sent), queue := Queue([Offer(s, x).value], false))
  {
    hide Offer, FrontAfter;
  }

  lemma FirstStates(steps: seq<Step>, cfg: Settings)
    requires |steps| == 3
    ensures Run(steps, cfg, 0) == Initial && Run(steps, cfg, 1) == Next(Initial, steps[0], cfg)
    ensures Run(steps, cfg, 2) == Next(Run(steps, cfg, 1), steps[1], cfg)
    ensures Run(steps, cfg, 3) == Next(Run(steps, cfg, 2), steps[2], cfg)
  {
    hide Next;
  }

  lemma AcceptedLate(steps: seq<Step>, cfg: Settings)
    requires |steps| == 3 && !FromRecorder(steps[0]) && !FromRecorder(steps[2])
    ensures Log(steps, cfg, 3) == Accepted(Run(steps, cfg, 1), steps[1], cfg)
  {
    hide Run;
    assert Log(steps, cfg, 1) == [];
  }

  lemma OfferIgnores(s: System, x: Step)
    requires s.front == FreshFront
    ensures Offer(s, x) == Offer(Initial, x)
  {
    hide RowsOf, Encoded;
  }

  lemma FlushedEmpty(b: Back, o: Outcomes)
    requires Waiting(b.pending) == Streams([], [], []) && b.pending.snapshot.None?
    ensures AllFlushed(b, o).tables == b.tables
  {
  }

  /** A raw row recorded in between is accepted, neither dropped nor reported, and never stored. */
  lemma LateRowIsLost(cfg: Settings)
    requires cfg.capacity >= 1
    ensures var steps := CalledLate(RawIn("", 0));
      var s := Run(steps, cfg, 3);
      && ShutsDown(steps, cfg, 0, 2) && InTables(s.back.tables) == Streams([], [], [])
      && RawsOf(Log(steps, cfg, 3)) == [RawRow(1, 0, "")]
      && s.front.overflows == 0 && s.front.rawDropped == 0
  {
    hide Log, Run, ShutsDown;
    LateCall(cfg, RawIn("", 0));
    SingleStreams(Raw(RawRow(1, 0, "")));
  }

  /** The same for a snapshot, which a fetch that is still under way may record. */
  lemma LateSnapshotIsLost(cfg: Settings)
    requires cfg.capacity >= 1
    ensures var steps := CalledLate(SnapshotIn(1, [], []));
      var s := Run(steps, cfg, 3);
      && ShutsDown(steps, cfg, 0, 2) && s.back.tables.snapshots == []
      && |SnapshotsOf(Log(steps, cfg, 3))| == 1 && Overwrites(steps, cfg, 1) == 0
      && s.front.overflows == 0
  {
    hide Log, Run, ShutsDown, Encoded;
    var x := SnapshotIn(1, [], []);
    LateCall(cfg, x);
    SnapshotsSingle(Offer(Initial, x).value);
    OverwritesStep(CalledLate(x), cfg, 0);
    FirstStates(CalledLate(x), cfg);
  }
}
