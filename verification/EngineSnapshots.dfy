/** When the engine takes a snapshot, and what the snapshot shows of its book. */
module EngineSnapshots {
  import opened Arithmetic
  import opened Engine
  import opened EngineRuns
  import opened Options
  import opened Shadow
  import opened ShadowPrices

  /** Time of a trade or a book update; other events have none. */
  function ClockOf(input: Input): Option<nat> {
    match input
    case Event(BookUpdated(_, time, _, _)) => Some(time)
    case Event(TradeEvent(t)) => Some(t.tradeTime)
    case _ => None
  }

  /** The last of these times. */
  function LastClock(inputs: seq<Input>, n: nat): Option<nat>
    requires n <= |inputs|
  {
    if n == 0 then None else if ClockOf(inputs[n - 1]).Some? then ClockOf(inputs[n - 1]) else LastClock(inputs, n - 1)
  }

  lemma {:induction false} LastEventIsClock(inputs: seq<Input>, cfg: EngineConfig, n: nat)
    requires ValidConfig(cfg) && n <= |inputs|
    ensures Run(FreshEngine, inputs, cfg, n).lastEvent == LastClock(inputs, n)
  {
    hide Next;
    if n > 0 {
      LastEventIsClock(inputs, cfg, n - 1);
      NextEvent(Run(FreshEngine, inputs, cfg, n - 1), inputs[n - 1], cfg);
    }
  }

  /** One more snapshot, taken at this time. */
  ghost predicate OneMore(before: seq<MarketSnapshot>, after: seq<MarketSnapshot>, time: nat) {
    |after| == |before| + 1 && after[..|before|] == before && after[|before|].timestamp == time
  }

  /** Over every run: an event with a time brings a snapshot, of that time, if and only if there was none before
      or the last one lies at least the snapshot interval, and at least one millisecond, back; other events
      bring none. A forced snapshot comes if and only if an event with a time did, and has the time of the last
      one. */
  lemma SnapshotsExactlyWhenDue(inputs: seq<Input>, cfg: EngineConfig, n: nat)
    requires ValidConfig(cfg) && n < |inputs|
    ensures var before, after := Snapshots(FreshEngine, inputs, cfg, n), Snapshots(FreshEngine, inputs, cfg, n + 1);
      var clock, last := ClockOf(inputs[n]), LastClock(inputs, n);
      && (clock.Some?
          ==> if before == []
                 || clock.value >= before[|before| - 1].timestamp + Larger(1, cfg.snapshotInterval)
              then OneMore(before, after, clock.value) else after == before)
      && (inputs[n].Event? && clock.None? ==> after == before)
      && (inputs[n].Force? ==> if last.Some? then OneMore(before, after, last.value) else after == before)
  {
    hide Run, Snapshots, Spaced, Out;
    LastEventIsClock(inputs, cfg, n);
    SnapshotsAreSpaced(inputs, cfg, n);
    MoreSnapshots(inputs, cfg, n);
    OutExactly(Run(FreshEngine, inputs, cfg, n), inputs[n], cfg);
    var before, out := Snapshots(FreshEngine, inputs, cfg, n), Out(Run(FreshEngine, inputs, cfg, n), inputs[n], cfg);
    if out == [] { assert before + out == before; }
  }

  lemma MoreSnapshots(inputs: seq<Input>, cfg: EngineConfig, n: nat)
    requires ValidConfig(cfg) && n < |inputs|
    ensures Snapshots(FreshEngine, inputs, cfg, n + 1)
         == Snapshots(FreshEngine, inputs, cfg, n) + Out(Run(FreshEngine, inputs, cfg, n), inputs[n], cfg)
    ensures Run(FreshEngine, inputs, cfg, n + 1) == Next(Run(FreshEngine, inputs, cfg, n), inputs[n], cfg)
  {
    hide Out, Next;
  }

  lemma OutExactly(s: EngineState, input: Input, cfg: EngineConfig)
    requires ValidConfig(cfg)
    ensures var out, clock := Out(s, input, cfg), ClockOf(input);
      && |out| <= 1
      && (clock.Some? ==> (out != [] <==> s.lastSnapshot.None?
                                          || clock.value >= s.lastSnapshot.value + Larger(1, cfg.snapshotInterval)))
      && (clock.Some? && out != [] ==> out[0].timestamp == clock.value)
      && (input.Event? && clock.None? ==> out == [])
      && (input.Force? ==> (out != [] <==> s.lastEvent.Some?) && (out != [] ==> out[0].timestamp == s.lastEvent.value))
  {
    hide Taken, Crossed, DepthOf, MidPriceOf, SpreadOf, ImbalanceOf, MicropriceOf;
    if input.Event? { TakingKeepsLast(s, input.x, cfg); }
  }

  /** A snapshot shows the book as the input left it. */
  ghost predicate ShowsBook(m: MarketSnapshot, s: ShadowState, cfg: EngineConfig) {
    && m.bookReady == s.ready
    && (if s.bids == map[] then m.bestBid == None else m.bestBid.Some? && IsBestBid(s.bids, m.bestBid.value))
    && (if s.asks == map[] then m.bestAsk == None else m.bestAsk.Some? && IsBestAsk(s.asks, m.bestAsk.value))
    && m.spread == SpreadOf(s) && m.midPrice == MidPriceOf(s)
    && m.microprice == MicropriceOf(s.bids, s.asks, s.ready)
    && m.depthVolume == DepthOf(s, cfg.depth) && m.imbalance == ImbalanceOf(s, cfg.depth)
    && ((exists p, q :: p in s.bids && q in s.asks && p >= q) ==> m.crossed)
  }

  lemma SnapshotShowsBook(inputs: seq<Input>, cfg: EngineConfig, n: nat)
    requires ValidConfig(cfg) && n < |inputs|
    requires Out(Run(FreshEngine, inputs, cfg, n), inputs[n], cfg) != []
    ensures ShowsBook(Out(Run(FreshEngine, inputs, cfg, n), inputs[n], cfg)[0],
                      Run(FreshEngine, inputs, cfg, n + 1).shadow, cfg)
  {
    hide Run;
    MoreSnapshots(inputs, cfg, n);
    OutShowsBook(Run(FreshEngine, inputs, cfg, n), inputs[n], cfg);
  }

  lemma OutShowsBook(s: EngineState, input: Input, cfg: EngineConfig)
    requires ValidConfig(cfg) && Out(s, input, cfg) != []
    ensures ShowsBook(Out(s, input, cfg)[0], Next(s, input, cfg).shadow, cfg)
  {
    hide Taken, Next, ShowsBook, SnapshotAt;
    OutputShape(s, input, cfg);
    var before := Before(s, input, cfg);
    if input.Event? {
      TakenShows(before, SnapshotTime(input.x).value, cfg);
    } else {
      TakenShows(before, before.lastEvent.value, cfg);
    }
  }

  lemma TakenShows(s: EngineState, time: nat, cfg: EngineConfig)
    ensures ShowsBook(SnapshotAt(s, time, cfg), s.shadow, cfg)
  {
    hide DepthOf, MidPriceOf, SpreadOf, ImbalanceOf, MicropriceOf, Crossed;
    CrossedExactly(s.shadow);
  }
}
