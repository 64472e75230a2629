/** The shadow book of the engine over whole runs: what it displays is what the events said last. */
module EngineBook {
  import opened Engine
  import opened EngineHeat
  import opened Options
  import opened OrderBooks
  import opened Shadow
  import opened ShadowLevels
  import opened Wire
  import R = EngineRuns

  function LevelsFor(side: BookSide, bids: seq<Level>, asks: seq<Level>): seq<Level> {
    if side == Bid then bids else asks
  }

  /** The quantity that the events of a run leave at a level: a snapshot lists what is displayed, an update changes the
      levels that it mentions, the start of a resynchronization takes everything away. */
  function LeftAt(inputs: seq<R.Input>, n: nat, side: BookSide, price: nat): Option<nat>
    requires n <= |inputs|
  {
    if n == 0 then None
    else
      var before := LeftAt(inputs, n - 1, side, price);
      match inputs[n - 1]
      case Event(BookSnapshot(_, bids, asks)) => LastPositive(LevelsFor(side, bids, asks), price)
      case Event(BookUpdated(_, _, bids, asks)) =>
        var mention := LastMention(LevelsFor(side, bids, asks), price);
        if mention.None? then before else if mention.value == 0 then None else mention
      case Event(ResyncStarted) => None
      case _ => before
  }

  /** The book is ready after a snapshot or the announcement, until a resynchronization starts. */
  function ReadyAfter(inputs: seq<R.Input>, n: nat): bool
    requires n <= |inputs|
  {
    if n == 0 then false
    else
      match inputs[n - 1]
      case Event(Synchronized) => true
      case Event(BookSnapshot(_, _, _)) => true
      case Event(ResyncStarted) => false
      case _ => ReadyAfter(inputs, n - 1)
  }

  function SideOf(s: ShadowState, side: BookSide): Ladder {
    if side == Bid then s.bids else s.asks
  }

  lemma {:induction false} OverlayLeaves(m: Ladder, levels: seq<Level>, price: nat)
    ensures OldQuantity(Overlay(m, levels), price)
         == (var mention := LastMention(levels, price);
             if mention.None? then OldQuantity(m, price) else if mention.value == 0 then None else mention)
    decreases |levels|
  {
    if levels != [] {
      OverlayLeaves(SetLevel(m, levels[0].price, levels[0].quantity), levels[1..], price);
    }
  }

  /** What an event does to the shadow book, whatever else it does. */
  lemma TakenBook(s: EngineState, x: MarketEvent, cfg: EngineConfig)
    requires ValidConfig(cfg)
    ensures var r := Taken(s, x, cfg).shadow;
      match x
      case Synchronized => r == ShadowReady(s.shadow, true)
      case BookSnapshot(id, bids, asks) =>
        var seeded := ShadowSnapshot(s.shadow, bids, asks, id);
        r.bids == seeded.bids && r.asks == seeded.asks && r.ready == seeded.ready
      case BookUpdated(id, _, bids, asks) =>
        r.bids == Overlay(s.shadow.bids, bids) && r.asks == Overlay(s.shadow.asks, asks) && r.ready == s.shadow.ready
      case ResyncStarted => r == ShadowReady(s.shadow, false)
      case _ => r == s.shadow
  {
    hide TradeTaken, Changes, Overlay, LevelsTaken, Crossed, Loaded;
    match x {
      case TradeEvent(t) => R.TradeFrame(s, t, cfg);
      case BookUpdated(id, time, bids, asks) =>
        R.LevelsKeepLast(s.(lastEvent := Some(time), shadow := ShadowUpdate(s.shadow, bids, asks, id)),
                         ChangesOf(s.shadow, bids, asks), time, cfg);
      case _ =>
    }
  }

  lemma NextBook(s: EngineState, input: R.Input, cfg: EngineConfig)
    requires ValidConfig(cfg)
    ensures R.Next(s, input, cfg).shadow == if input.Event? then Taken(s, input.x, cfg).shadow else s.shadow
  {
    R.OutputShape(s, input, cfg);
    hide R.Next, R.Out, Taken;
  }

  /** Over every run, at every level: the shadow book displays exactly what the events left there, and is ready
      exactly when they say so. */
  lemma {:induction false} BookIsWhatEventsLeft(inputs: seq<R.Input>, cfg: EngineConfig, n: nat, side: BookSide,
                                                price: nat)
    requires ValidConfig(cfg) && n <= |inputs|
    ensures var s := R.Run(FreshEngine, inputs, cfg, n).shadow;
      OldQuantity(SideOf(s, side), price) == LeftAt(inputs, n, side, price) && s.ready == ReadyAfter(inputs, n)
  {
    hide R.Next, Taken, Overlay, ShadowSnapshot, LastPositive, LastMention;
    if n > 0 {
      BookIsWhatEventsLeft(inputs, cfg, n - 1, side, price);
      var s, input := R.Run(FreshEngine, inputs, cfg, n - 1), inputs[n - 1];
      NextBook(s, input, cfg);
      if input.Event? {
        TakenBook(s, input.x, cfg);
        match input.x {
          case BookSnapshot(id, bids, asks) => SnapshotShows(s.shadow, bids, asks, id, price);
          case BookUpdated(_, _, bids, asks) =>
            OverlayLeaves(SideOf(s.shadow, side), LevelsFor(side, bids, asks), price);
          case _ =>
        }
      }
    }
  }
}
