/** Over whole runs the absorption windows of the engine are those of the trades and changes that its events bring. */
module EngineAbsorption {
  import opened Engine
  import opened EngineHeat
  import opened Liquidity
  import opened Options
  import opened OrderBooks
  import opened Shadow
  import opened ShadowPrices
  import opened Wire
  import A = Absorption
  import AR = AbsorptionRuns
  import H = Heatmaps
  import R = EngineRuns

  /** The detector is asked about a trade if and only if the book is ready, no bid is at or above an ask, and the
      aggressor's side shows something; it is told the best price of that side and the depth of the other. */
  lemma AskedExactly(s: EngineState, t: Trade, cfg: EngineConfig)
    ensures AsksAbsorption(s, t)
       <==> s.shadow.ready && (forall p, q | p in s.shadow.bids && q in s.shadow.asks :: p < q)
            && (if t.aggressor == Buy then s.shadow.bids != map[] else s.shadow.asks != map[])
    ensures AsksAbsorption(s, t) && t.aggressor == Buy
        ==> IsBestBid(s.shadow.bids, BestFor(s.shadow, t))
            && OpposingDepth(s.shadow, t, cfg) == DepthOf(s.shadow, cfg.depth).1
    ensures AsksAbsorption(s, t) && t.aggressor == Sell
        ==> IsBestAsk(s.shadow.asks, BestFor(s.shadow, t))
            && OpposingDepth(s.shadow, t, cfg) == DepthOf(s.shadow, cfg.depth).0
  {
    hide DepthOf, Crossed;
    CrossedExactly(s.shadow);
  }

  /** What the detector hears of changes: every quantity, and a rise as a refill before it. */
  function ChangesHeard(changes: seq<LevelChange>, time: nat): seq<AR.Signal>
    decreases |changes|
  {
    if changes == [] then []
    else
      var c := changes[0];
      (if c.newQuantity > Was(c.oldQuantity) then [AR.Refilled(c.price, c.newQuantity, time)] else [])
      + [AR.Facing(c.price, c.newQuantity, time)] + ChangesHeard(changes[1..], time)
  }

  function WindowsHeard(s: EngineState, input: R.Input, cfg: EngineConfig): seq<AR.Signal> {
    if input.Force? then []
    else
      match input.x
      case TradeEvent(t) =>
        if AsksAbsorption(s, t) then [AR.Asking(t, BestFor(s.shadow, t), OpposingDepth(s.shadow, t, cfg))] else []
      case BookUpdated(_, time, bids, asks) => ChangesHeard(ChangesOf(s.shadow, bids, asks), time)
      case _ => []
  }

  function WindowsHeardIn(inputs: seq<R.Input>, cfg: EngineConfig, n: nat): seq<AR.Signal>
    requires ValidConfig(cfg) && n <= |inputs|
  {
    if n == 0 then []
    else WindowsHeardIn(inputs, cfg, n - 1) + WindowsHeard(R.Run(FreshEngine, inputs, cfg, n - 1), inputs[n - 1], cfg)
  }

  function Watched(s: A.AbsorptionState, signals: seq<AR.Signal>, cfg: EngineConfig): A.AbsorptionState
    requires ValidConfig(cfg)
  {
    if signals == [] then s
    else AR.Next(Watched(s, signals[..|signals| - 1], cfg), signals[|signals| - 1], cfg.absorption)
  }

  lemma {:induction false} WatchedConcat(s: A.AbsorptionState, a: seq<AR.Signal>, b: seq<AR.Signal>, cfg: EngineConfig)
    requires ValidConfig(cfg)
    ensures Watched(s, a + b, cfg) == Watched(Watched(s, a, cfg), b, cfg)
    decreases |b|
  {
    hide AR.Next;
    if b == [] {
      assert a + b == a;
    } else {
      assert (a + b)[..|a + b| - 1] == a + b[..|b| - 1];
      WatchedConcat(s, a, b[..|b| - 1], cfg);
    }
  }

  lemma WatchedOne(s: A.AbsorptionState, x: AR.Signal, cfg: EngineConfig)
    requires ValidConfig(cfg)
    ensures Watched(s, [x], cfg) == AR.Next(s, x, cfg.absorption)
  {
    hide AR.Next;
    assert [x][..0] == [];
  }

  lemma NothingWatched(s: A.AbsorptionState, cfg: EngineConfig)
    requires ValidConfig(cfg)
    ensures Watched(s, [], cfg) == s
  {
  }

  lemma {:induction false} WatchedIsTracked(signals: seq<AR.Signal>, cfg: EngineConfig, n: nat)
    requires ValidConfig(cfg) && n <= |signals|
    ensures AR.Tracked(signals, cfg.absorption, n) == Watched(A.NoAbsorption, signals[..n], cfg)
  {
    hide AR.Next;
    if n > 0 {
      WatchedIsTracked(signals, cfg, n - 1);
      assert signals[..n][..n - 1] == signals[..n - 1];
    }
  }

  lemma ChangeWatched(s: EngineState, c: LevelChange, time: nat, cfg: EngineConfig)
    requires ValidConfig(cfg)
    ensures LevelTaken(s, c, time, cfg).absorption
         == Watched(s.absorption, (if c.newQuantity > Was(c.oldQuantity)
                                   then [AR.Refilled(c.price, c.newQuantity, time)] else [])
                                  + [AR.Facing(c.price, c.newQuantity, time)], cfg)
  {
    hide H.Landed, Observed, Matches, A.AllReplenished, A.AllFaced;
    var refilled, facing := AR.Refilled(c.price, c.newQuantity, time), AR.Facing(c.price, c.newQuantity, time);
    WatchedOne(s.absorption, refilled, cfg);
    WatchedOne(s.absorption, facing, cfg);
    WatchedOne(Watched(s.absorption, [refilled], cfg), facing, cfg);
    WatchedConcat(s.absorption, [refilled], [facing], cfg);
    assert [] + [facing] == [facing];
    hide Watched;
  }

  lemma {:induction false} ChangesWatched(s: EngineState, changes: seq<LevelChange>, time: nat, cfg: EngineConfig)
    requires ValidConfig(cfg)
    ensures LevelsTaken(s, changes, time, cfg).absorption
         == Watched(s.absorption, ChangesHeard(changes, time), cfg)
    decreases |changes|
  {
    hide LevelTaken, Watched;
    if changes == [] {
      NothingWatched(s.absorption, cfg);
    } else {
      var c := changes[0];
      ChangeWatched(s, c, time, cfg);
      ChangesWatched(LevelTaken(s, c, time, cfg), changes[1..], time, cfg);
      WatchedConcat(s.absorption, (if c.newQuantity > Was(c.oldQuantity)
                                   then [AR.Refilled(c.price, c.newQuantity, time)] else [])
                                  + [AR.Facing(c.price, c.newQuantity, time)], ChangesHeard(changes[1..], time), cfg);
    }
  }

  lemma TradeWatched(s: EngineState, t: Trade, cfg: EngineConfig)
    requires ValidConfig(cfg)
    ensures TradeTaken(s, t, cfg).absorption
         == if AsksAbsorption(s, t)
            then A.Asked(s.absorption, t, BestFor(s.shadow, t), OpposingDepth(s.shadow, t, cfg), cfg.absorption)
            else s.absorption
  {
    SameParts(s, t, cfg);
    hide FlowTaken, LargeChecked, Clustered, A.Asked, A.Found, BestFor, OpposingDepth, Crossed, H.Landed;
  }

  lemma InputWatched(s: EngineState, input: R.Input, cfg: EngineConfig)
    requires ValidConfig(cfg)
    ensures R.Next(s, input, cfg).absorption == Watched(s.absorption, WindowsHeard(s, input, cfg), cfg)
  {
    hide Watched, TradeTaken, LevelsTaken, Crossed, Changes, Overlay, ShadowSnapshot, ChangesHeard, AsksAbsorption;
    hide A.Asked, Due, H.From, Liquidity.Pruned, BestFor, OpposingDepth;
    NothingWatched(s.absorption, cfg);
    if input.Event? {
      match input.x {
        case TradeEvent(t) =>
          TradeWatched(s, t, cfg);
          WatchedOne(s.absorption, AR.Asking(t, BestFor(s.shadow, t), OpposingDepth(s.shadow, t, cfg)), cfg);
        case BookUpdated(id, time, bids, asks) =>
          ChangesWatched(s.(lastEvent := Some(time), shadow := ShadowUpdate(s.shadow, bids, asks, id)),
                         ChangesOf(s.shadow, bids, asks), time, cfg);
        case _ =>
      }
    }
  }

  lemma {:induction false} AbsorptionIsWatched(inputs: seq<R.Input>, cfg: EngineConfig, n: nat)
    requires ValidConfig(cfg) && n <= |inputs|
    ensures R.Run(FreshEngine, inputs, cfg, n).absorption
         == Watched(A.NoAbsorption, WindowsHeardIn(inputs, cfg, n), cfg)
  {
    hide Watched, R.Next, WindowsHeard;
    if n == 0 {
      NothingWatched(A.NoAbsorption, cfg);
    } else {
      AbsorptionIsWatched(inputs, cfg, n - 1);
      var s := R.Run(FreshEngine, inputs, cfg, n - 1);
      InputWatched(s, inputs[n - 1], cfg);
      WatchedConcat(A.NoAbsorption, WindowsHeardIn(inputs, cfg, n - 1), WindowsHeard(s, inputs[n - 1], cfg), cfg);
    }
  }

  /** Over every run the windows of the engine are those of exactly these signals, so that each says what happened
      since it was opened. */
  lemma EngineWindowsAreTracked(inputs: seq<R.Input>, cfg: EngineConfig, n: nat)
    requires ValidConfig(cfg) && n <= |inputs|
    ensures var heard := WindowsHeardIn(inputs, cfg, n);
      R.Run(FreshEngine, inputs, cfg, n).absorption == AR.Tracked(heard, cfg.absorption, |heard|)
  {
    hide R.Run, WindowsHeardIn, Watched, AR.Tracked;
    var heard := WindowsHeardIn(inputs, cfg, n);
    AbsorptionIsWatched(inputs, cfg, n);
    WatchedIsTracked(heard, cfg, |heard|);
    assert heard[..|heard|] == heard;
  }
}
