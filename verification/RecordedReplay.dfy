/** End to end: a live run recorded through the bounded queue and the failing storage, shut down,
    loaded and replayed. */
module RecordedReplay {
  import opened DepthFeed
  import opened LiveSession
  import opened OrderBooks
  import opened RecordedShutdowns
  import opened RecordedSnapshots
  import opened Recording
  import opened RecordingRuns
  import opened Replay
  import opened ReplayOutcome
  import opened ReplaySimulation
  import opened Rows
  import opened Trades
  import opened Wire

  /** The raw message of an input. */
  datatype Message = Message(payload: string, time: nat)

  /** The recorder calls that the event loop makes for one input. */
  function CallsFor(s: LiveState, input: Input, raw: Input -> Message): seq<Step> {
    match input
    case DepthIn(e) => [Step.RawIn(raw(input).payload, raw(input).time), Step.DepthIn(e)]
    case SnapshotIn(id, bids, asks) =>
      if SnapshotApplied(s.feed.book, bids, asks, id).1 then [Step.SnapshotIn(id, bids, asks)] else []
    case TradeIn(t) => [Step.RawIn(raw(input).payload, raw(input).time)] + TradeCall(s, t)
    case RejectedIn(_) => [Step.RawIn(raw(input).payload, raw(input).time)]
  }

  function TradeCall(s: LiveState, t: Trade): seq<Step> {
    if Taken(s.intake, t, DUPLICATE_WINDOW).1 == Processed then [Step.TradeIn(t)] else []
  }

  function Calls(inputs: seq<Input>, raw: Input -> Message): seq<Step> {
    if inputs == [] then []
    else
      var before := inputs[..|inputs| - 1];
      Calls(before, raw) + CallsFor(LiveRun(before), inputs[|inputs| - 1], raw)
  }

  /** The recorder calls among the steps of a run. */
  function RecorderSteps(steps: seq<Step>): seq<Step> {
    if steps == [] then []
    else
      RecorderSteps(steps[..|steps| - 1]) + CallOf(steps[|steps| - 1])
  }

  function CallOf(x: Step): seq<Step> {
    if FromRecorder(x) then [x] else []
  }

  /** Next sequence number and rows if the queue takes everything. */
  datatype Ideal = Ideal(nextSeq: nat, rows: Streams, snapshots: seq<SnapshotRow>)

  function CallRows(n: nat, x: Step): Streams {
    match x
    case RawIn(payload, time) => Streams([RawRow(n, time, payload)], [], [])
    case TradeIn(t) => Streams([], [TradeRow(n, t)], [])
    case DepthIn(e) => Streams([], [], RowsOf(n, e))
    case _ => Streams([], [], [])
  }

  function CallSnapshots(n: nat, x: Step): seq<SnapshotRow> {
    if x.SnapshotIn? then [SnapshotRow(n, x.id, Encoded(x.bids), Encoded(x.asks))] else []
  }

  function IdealStep(i: Ideal, x: Step): Ideal {
    Ideal(i.nextSeq + 1, Joined(i.rows, CallRows(i.nextSeq, x)), i.snapshots + CallSnapshots(i.nextSeq, x))
  }

  function IdealRun(calls: seq<Step>): Ideal {
    if calls == [] then Ideal(1, Streams([], [], []), [])
    else IdealStep(IdealRun(calls[..|calls| - 1]), calls[|calls| - 1])
  }

  lemma IdealAppend(calls: seq<Step>, x: Step)
    ensures IdealRun(calls + [x]) == IdealStep(IdealRun(calls), x)
  {
    assert (calls + [x])[..|calls|] == calls;
  }

  /** The accepted records are what an unbounded queue would have taken. */
  ghost predicate TookAll(s: System, log: seq<Record>, i: Ideal) {
    && s.front.nextSeq == i.nextSeq
    && StreamsOf(log) == i.rows
    && SnapshotsOf(log) == i.snapshots
  }

  /** A call without overflow on an open queue adds its rows to the accepted ones. */
  lemma CallAccepted(s: System, log: seq<Record>, x: Step, cfg: Settings, i: Ideal)
    requires FromRecorder(x) && Next(s, x, cfg).front.overflows == 0 && !s.queue.closed
    requires TookAll(s, log, i)
    ensures TookAll(Next(s, x, cfg), log + Accepted(s, x, cfg), IdealStep(i, x))
  {
    hide RowsOf, Encoded, RawsOf, TradesOf, LevelsIn, SnapshotsOf;
    var accepted := Accepted(s, x, cfg);
    StreamsConcat(log, accepted);
    SnapshotsConcat(log, accepted);
    if accepted != [] {
      SingleStreams(accepted[0]);
      SnapshotsSingle(accepted[0]);
    } else {
      NothingStreams();
      NoSnapshots();
    }
  }

  lemma NothingStreams()
    ensures StreamsOf([]) == Streams([], [], [])
  {
  }

  lemma IdleStep(s: System, log: seq<Record>, x: Step, cfg: Settings)
    requires !FromRecorder(x)
    ensures Next(s, x, cfg).front == s.front && log + Accepted(s, x, cfg) == log
  {
    hide AllFlushed, AllEnqueued;
  }

  lemma EarlierState(s: System, x: Step, cfg: Settings)
    ensures Next(s, x, cfg).front.overflows == 0 ==> s.front.overflows == 0
    ensures !Next(s, x, cfg).finishing ==> !s.finishing
  {
    hide RowsOf, Encoded, AllFlushed, AllEnqueued;
  }

  /** Before the drain, a queue that never overflowed has taken every call, whatever the worker did in
      between. */
  lemma {:induction false} LogIsIdeal(steps: seq<Step>, cfg: Settings, n: nat)
    requires n <= |steps|
    requires RecordingRuns.Run(steps, cfg, n).front.overflows == 0 && !RecordingRuns.Run(steps, cfg, n).finishing
    ensures TookAll(RecordingRuns.Run(steps, cfg, n), RecordingRuns.Log(steps, cfg, n),
                    IdealRun(RecorderSteps(steps[..n])))
  {
    hide RecordingRuns.Next, Accepted, TookAll, IdealStep;
    if n == 0 {
      StartTook();
    } else {
      var x, s, log := steps[n - 1], RecordingRuns.Run(steps, cfg, n - 1), RecordingRuns.Log(steps, cfg, n - 1);
      EarlierState(s, x, cfg);
      LogIsIdeal(steps, cfg, n - 1);
      OpenUntilFinished(steps, cfg, n - 1);
      var calls := RecorderSteps(steps[..n - 1]);
      LastStep(steps, n);
      hide RecorderSteps, IdealRun;
      if FromRecorder(x) {
        IdealAppend(calls, x);
        CallAccepted(s, log, x, cfg, IdealRun(calls));
      } else {
        IdleStep(s, log, x, cfg);
        SameFront(s, RecordingRuns.Next(s, x, cfg), log, IdealRun(calls));
        assert calls + [] == calls;
      }
    }
  }

  lemma SameFront(a: System, b: System, log: seq<Record>, i: Ideal)
    requires a.front == b.front && TookAll(a, log, i)
    ensures TookAll(b, log, i)
  {
  }

  lemma StartTook()
    ensures TookAll(Initial, [], IdealRun([]))
  {
  }

  lemma LastStep(steps: seq<Step>, n: nat)
    requires 0 < n <= |steps|
    ensures RecorderSteps(steps[..n]) == RecorderSteps(steps[..n - 1]) + CallOf(steps[n - 1])
  {
    assert steps[..n][..n - 1] == steps[..n - 1];
  }

  /** What the queue would take is what the live run lists as recorded. */
  ghost predicate Lists(i: Ideal, s: LiveState) {
    && i.nextSeq == s.nextSeq
    && i.rows.trades == s.tradeRows && i.rows.depth == s.levelRows
    && i.snapshots == s.snapshotRows
  }

  lemma CallsList(calls: seq<Step>, s: LiveState, input: Input, raw: Input -> Message)
    requires Lists(IdealRun(calls), s)
    ensures Lists(IdealRun(calls + CallsFor(s, input, raw)), LiveNext(s, input))
  {
    hide RowsOf, Encoded, Taken, IdealRun, SnapshotApplied, SnapshotStep, DepthStep;
    var more := CallsFor(s, input, raw);
    match input {
      case DepthIn(e) =>
        IdealAppend(calls, more[0]);
        IdealAppend(calls + [more[0]], more[1]);
        assert calls + more == calls + [more[0]] + [more[1]];
      case SnapshotIn(id, bids, asks) =>
        if SnapshotApplied(s.feed.book, bids, asks, id).1 {
          IdealAppend(calls, more[0]);
          assert calls + more == calls + [more[0]];
        } else {
          assert calls + more == calls;
        }
      case TradeIn(t) =>
        IdealAppend(calls, more[0]);
        if Taken(s.intake, t, DUPLICATE_WINDOW).1 == Processed {
          IdealAppend(calls + [more[0]], more[1]);
          assert calls + more == calls + [more[0]] + [more[1]];
        } else {
          assert calls + more == calls + [more[0]];
        }
      case RejectedIn(_) =>
        IdealAppend(calls, more[0]);
        assert calls + more == calls + [more[0]];
    }
  }

  lemma {:induction false} LiveRunIsListed(inputs: seq<Input>, raw: Input -> Message)
    ensures Lists(IdealRun(Calls(inputs, raw)), LiveRun(inputs))
  {
    hide IdealStep, CallsFor, LiveNext, Lists;
    if inputs == [] {
      StartListed();
    } else {
      var before := inputs[..|inputs| - 1];
      LiveRunIsListed(before, raw);
      CallsList(Calls(before, raw), LiveRun(before), inputs[|inputs| - 1], raw);
    }
  }

  lemma StartListed()
    ensures Lists(IdealRun([]), LiveStart)
  {
  }

  /** A shutdown after the last call of a recording, whose last inserts succeed. */
  ghost predicate FlushesAll(steps: seq<Step>, cfg: Settings, i: nat, j: nat) {
    ShutsDown(steps, cfg, i, j) && steps[j].outcomes == Outcomes(true, true, true, true)
  }

  /** The queue never overflowed and no pending snapshot was overwritten: both are decided step by step. */
  ghost predicate LosesNothing(steps: seq<Step>, cfg: Settings, i: nat)
    requires i < |steps|
  {
    RecordingRuns.Run(steps, cfg, i).front.overflows == 0 && Overwrites(steps, cfg, i + 1) == 0
  }

  lemma DrainAcceptsNothing(steps: seq<Step>, cfg: Settings, i: nat)
    requires i < |steps| && steps[i].DrainQueue?
    ensures RecordingRuns.Log(steps, cfg, i + 1) == RecordingRuns.Log(steps, cfg, i)
  {
  }

  /** Under any interleaving of the recorder calls with the worker and any insert failures before the
      shutdown, the tables end up holding exactly the rows of the live run. */
  lemma TablesHoldLiveRows(inputs: seq<Input>, raw: Input -> Message, steps: seq<Step>, cfg: Settings, i: nat, j: nat,
                           k: nat)
    requires FlushesAll(steps, cfg, i, j) && j < k <= |steps| && LosesNothing(steps, cfg, i)
    requires RecorderSteps(steps[..i]) == Calls(inputs, raw)
    ensures var live, tables := LiveRun(inputs), RecordingRuns.Run(steps, cfg, k).back.tables;
      tables.depth == live.levelRows && tables.trades == live.tradeRows && tables.snapshots == live.snapshotRows
  {
    hide RecordingRuns.Run, RecordingRuns.Next, IdealRun, StreamsOf, SnapshotsOf, Overwrites;
    ShutdownStoresWhatWasDrained(steps, cfg, i, j, k);
    ShutdownStoresSnapshots(steps, cfg, i, j, k);
    DrainAcceptsNothing(steps, cfg, i);
    LogIsIdeal(steps, cfg, i);
    LiveRunIsListed(inputs, raw);
  }

  /** End to end: recording through the queue and the failing storage, shutting down, loading the tables and
      replaying them ends where the live run ended, accepted trades included. */
  lemma RecordedRunReplays(inputs: seq<Input>, raw: Input -> Message, steps: seq<Step>, cfg: Settings, i: nat, j: nat,
                           k: nat)
    requires AllGridded(inputs) && AllLeaveTrace(inputs)
    requires FlushesAll(steps, cfg, i, j) && j < k <= |steps| && LosesNothing(steps, cfg, i)
    requires RecorderSteps(steps[..i]) == Calls(inputs, raw)
    ensures var tables := RecordingRuns.Run(steps, cfg, k).back.tables;
      Reproduces(inputs, Session(tables.snapshots, tables.depth, tables.trades))
  {
    hide RecordingRuns.Run, FlushesAll, LosesNothing, Session, Reproduces;
    TablesHoldLiveRows(inputs, raw, steps, cfg, i, j, k);
    ReplayReproducesLive(inputs);
  }
}
