/** Absorption windows over whole runs, in terms of the trades and levels that made them. */
module AbsorptionRuns {
  import opened Absorption
  import opened Arithmetic
  import opened Wire
  import S = Sweeps

  /** What the engine tells the detector. */
  datatype Signal =
    | Asking(trade: Trade, best: nat, opposing: nat)
    | Refilled(price: nat, amount: nat, time: nat)
    | Facing(price: nat, quantity: nat, time: nat)

  function Next(s: AbsorptionState, x: Signal, cfg: AbsorptionConfig): AbsorptionState
    requires cfg.minVolume > 0
  {
    match x
    case Asking(t, best, opposing) => Asked(s, t, best, opposing, cfg)
    case Refilled(price, amount, time) => s.(windows := AllReplenished(s.windows, price, amount, time, cfg))
    case Facing(price, quantity, time) => s.(windows := AllFaced(s.windows, price, quantity, time, cfg))
  }

  function Tracked(signals: seq<Signal>, cfg: AbsorptionConfig, n: nat): AbsorptionState
    requires cfg.minVolume > 0 && n <= |signals|
  {
    if n == 0 then NoAbsorption else Next(Tracked(signals, cfg, n - 1), signals[n - 1], cfg)
  }

  /** What happened since the window at a price was opened, beginning with the trade that opened it; a trade that
      comes more than the window after that one ends it and is not part of any. */
  function Since(signals: seq<Signal>, cfg: AbsorptionConfig, n: nat, p: nat): seq<Signal>
    requires n <= |signals|
  {
    if n == 0 then []
    else
      var before, x := Since(signals, cfg, n - 1, p), signals[n - 1];
      if x.Asking? && x.trade.price != p then before
      else if before == [] then if x.Asking? then [x] else []
      else if x.Asking? && before[0].Asking? && x.trade.tradeTime > before[0].trade.tradeTime + cfg.window then []
      else before + [x]
  }

  /** Trades of the window and their volume. */
  function TradesIn(events: seq<Signal>): nat {
    if events == [] then 0
    else TradesIn(events[..|events| - 1]) + if events[|events| - 1].Asking? then 1 else 0
  }

  function VolumeIn(events: seq<Signal>): nat {
    if events == [] then 0
    else
      var x := events[|events| - 1];
      VolumeIn(events[..|events| - 1]) + if x.Asking? then x.trade.quantity else 0
  }

  function LastTrade(events: seq<Signal>): nat
    requires events != [] && events[0].Asking?
  {
    if events[|events| - 1].Asking? then events[|events| - 1].trade.tradeTime
    else LastTrade(events[..|events| - 1])
  }

  /** How far a later trade finds the best price beyond the reference, in the direction of that trade. */
  predicate MovedBy(x: Signal, reference: nat, d: nat) {
    x.Asking? && if x.trade.aggressor == Buy then x.best == reference + d else reference == x.best + d
  }

  predicate MovedAtMost(x: Signal, reference: nat, d: nat) {
    x.Asking? ==> if x.trade.aggressor == Buy then x.best <= reference + d else reference <= x.best + d
  }

  /** The largest such move after the first trade, zero if there is none. */
  ghost predicate IsLargestMove(events: seq<Signal>, reference: nat, d: nat) {
    && (forall i | 1 <= i < |events| :: MovedAtMost(events[i], reference, d))
    && (d == 0 || exists i :: 1 <= i < |events| && MovedBy(events[i], reference, d))
  }

  /** A level on the far side of the reference price, in time. */
  predicate Counts(first: Signal, price: nat, time: nat, cfg: AbsorptionConfig)
    requires first.Asking?
  {
    && (if first.trade.aggressor == Buy then price > first.best else price < first.best)
    && time <= first.trade.tradeTime + cfg.window
  }

  function RefillOf(first: Signal, events: seq<Signal>, cfg: AbsorptionConfig): nat
    requires first.Asking?
  {
    if events == [] then 0
    else
      var x := events[|events| - 1];
      RefillOf(first, events[..|events| - 1], cfg)
      + if x.Refilled? && Counts(first, x.price, x.time, cfg) then x.amount else 0
  }

  function FacedOf(first: Signal, events: seq<Signal>, cfg: AbsorptionConfig): nat
    requires first.Asking?
  {
    if events == [] then first.opposing
    else
      var x := events[|events| - 1];
      if x.Facing? && Counts(first, x.price, x.time, cfg) then x.quantity
      else FacedOf(first, events[..|events| - 1], cfg)
  }

  /** What a window says of the events since it was opened. */
  ghost predicate Describes(w: Window, p: nat, events: seq<Signal>, cfg: AbsorptionConfig)
    requires events != [] && events[0].Asking?
  {
    var first := events[0];
    && w.price == p == first.trade.price && w.side == first.trade.aggressor
    && w.openAt == first.trade.tradeTime && w.closeAt == LastTrade(events)
    && w.reference == first.best && w.opposingOpen == first.opposing
    && w.trades == TradesIn(events) && w.volume == VolumeIn(events)
    && IsLargestMove(events, first.best, w.displacement)
    && w.replenished == RefillOf(first, events, cfg) && w.opposingClose == FacedOf(first, events, cfg)
  }

  ghost predicate WindowHolds(ws: Windows, p: nat, events: seq<Signal>, cfg: AbsorptionConfig) {
    && (p in ws <==> events != [])
    && (events != [] ==> events[0].Asking? && Describes(ws[p], p, events, cfg))
  }

  lemma WindowOpens(t: Trade, best: nat, opposing: nat, cfg: AbsorptionConfig)
    ensures Describes(Opened(t, best, opposing), t.price, [Asking(t, best, opposing)], cfg)
  {
    var x := Asking(t, best, opposing);
    var one, none: seq<Signal> := [x], [];
    assert one[..|one| - 1] == none && one[|one| - 1] == x;
    assert TradesIn(none) == 0 && VolumeIn(none) == 0;
    assert RefillOf(x, none, cfg) == 0 && FacedOf(x, none, cfg) == opposing;
    assert TradesIn(one) == 1 && VolumeIn(one) == t.quantity;
    assert RefillOf(x, one, cfg) == 0 && FacedOf(x, one, cfg) == opposing;
  }

  lemma LargestMoveGrows(events: seq<Signal>, x: Signal, reference: nat, d: nat, e: nat)
    requires events != [] && IsLargestMove(events, reference, d)
    requires if x.Asking? then MovedBy(x, reference, e) || (e == 0 && MovedAtMost(x, reference, 0)) else e == 0
    ensures IsLargestMove(events + [x], reference, Larger(d, e))
  {
    var all := events + [x];
    if d > 0 {
      var i :| 1 <= i < |events| && MovedBy(events[i], reference, d);
      assert MovedBy(all[i], reference, d);
    }
    if e > 0 { assert MovedBy(all[|events|], reference, e); }
    forall i | 1 <= i < |all| ensures MovedAtMost(all[i], reference, Larger(d, e)) {
      if i < |events| { assert MovedAtMost(events[i], reference, d); }
    }
  }

  lemma TradeHits(w: Window, p: nat, events: seq<Signal>, t: Trade, best: nat, opposing: nat, cfg: AbsorptionConfig)
    requires events != [] && events[0].Asking? && Describes(w, p, events, cfg) && t.price == p
    ensures Describes(Hit(w, t, best), p, events + [Asking(t, best, opposing)], cfg)
  {
    hide IsLargestMove;
    var x, all := Asking(t, best, opposing), events + [Asking(t, best, opposing)];
    assert all[..|events|] == events && all[0] == events[0];
    LargestMoveGrows(events, x, w.reference, w.displacement, Favorable(w, t, best));
  }

  lemma LevelTouches(w: Window, p: nat, events: seq<Signal>, x: Signal, cfg: AbsorptionConfig)
    requires events != [] && events[0].Asking? && Describes(w, p, events, cfg) && !x.Asking?
    ensures Describes(if x.Refilled? then Absorption.Replenished(w, x.price, x.amount, x.time, cfg)
                      else Faced(w, x.price, x.quantity, x.time, cfg), p, events + [x], cfg)
  {
    hide IsLargestMove;
    var all := events + [x];
    assert all[..|events|] == events && all[0] == events[0];
    LargestMoveGrows(events, x, w.reference, w.displacement, 0);
  }

  lemma SignalHolds(s: AbsorptionState, x: Signal, cfg: AbsorptionConfig, p: nat, before: seq<Signal>,
                    after: seq<Signal>)
    requires cfg.minVolume > 0 && WindowHolds(s.windows, p, before, cfg)
    requires after == (if x.Asking? && x.trade.price != p then before
                       else if before == [] then if x.Asking? then [x] else []
                       else if x.Asking? && before[0].Asking?
                               && x.trade.tradeTime > before[0].trade.tradeTime + cfg.window then []
                       else before + [x])
    ensures WindowHolds(Next(s, x, cfg).windows, p, after, cfg)
  {
    hide Describes, Hit, Opened, Evaluated, Absorption.Replenished, Faced;
    match x {
      case Asking(t, best, opposing) =>
        if t.price == p {
          if before == [] {
            WindowOpens(t, best, opposing, cfg);
          } else {
            OpenTime(s.windows[p], p, before, cfg);
            TradeHits(s.windows[p], p, before, t, best, opposing, cfg);
          }
        }
      case Refilled(_, _, _) => if before != [] { LevelTouches(s.windows[p], p, before, x, cfg); }
      case Facing(_, _, _) => if before != [] { LevelTouches(s.windows[p], p, before, x, cfg); }
    }
  }

  lemma OpenTime(w: Window, p: nat, events: seq<Signal>, cfg: AbsorptionConfig)
    requires events != [] && events[0].Asking? && Describes(w, p, events, cfg)
    ensures w.openAt == events[0].trade.tradeTime
  {
  }

  /** Over every run, for every price: a window is open if and only if a trade opened one that no trade has ended,
      and it says exactly what happened since. */
  lemma {:induction false} WindowsAreRuns(signals: seq<Signal>, cfg: AbsorptionConfig, n: nat, p: nat)
    requires cfg.minVolume > 0 && n <= |signals|
    ensures WindowHolds(Tracked(signals, cfg, n).windows, p, Since(signals, cfg, n, p), cfg)
  {
    hide WindowHolds, Next;
    if n == 0 {
      NoWindow(p, cfg);
    } else {
      WindowsAreRuns(signals, cfg, n - 1, p);
      SignalHolds(Tracked(signals, cfg, n - 1), signals[n - 1], cfg, p, Since(signals, cfg, n - 1, p),
                  Since(signals, cfg, n, p));
    }
  }

  lemma NoWindow(p: nat, cfg: AbsorptionConfig)
    ensures WindowHolds(map[], p, [], cfg)
  {
  }

  /** A trade finds a candidate if and only if it ends a window with enough trades and volume, in which the price
      gave way by no more than the allowed number of price ticks, and enough confidence. */
  lemma FoundExactly(signals: seq<Signal>, cfg: AbsorptionConfig, n: nat, t: Trade)
    requires cfg.minVolume > 0 && n <= |signals|
    ensures var events, s := Since(signals, cfg, n, t.price), Tracked(signals, cfg, n);
      Found(s, t, cfg).Some?
      <==> t.price in s.windows && events != [] && events[0].Asking?
           && t.tradeTime > events[0].trade.tradeTime + cfg.window
           && TradesIn(events) >= cfg.minTrades && VolumeIn(events) >= cfg.minVolume
           && s.windows[t.price].displacement < (Larger(1, cfg.maxExcursion) + 1) * Larger(1, cfg.tickSize)
           && Confidence(s.windows[t.price], cfg) >= cfg.threshold
  {
    hide Confidence, Since, Tracked;
    WindowsAreRuns(signals, cfg, n, t.price);
    if t.price in Tracked(signals, cfg, n).windows {
      ExcursionExactly(Tracked(signals, cfg, n).windows[t.price].displacement, Larger(1, cfg.tickSize),
                       Larger(1, cfg.maxExcursion));
    }
  }

  /** Trades that found a candidate. */
  function FoundIn(signals: seq<Signal>, cfg: AbsorptionConfig, n: nat): nat
    requires cfg.minVolume > 0 && n <= |signals|
  {
    if n == 0 then 0
    else
      var x := signals[n - 1];
      FoundIn(signals, cfg, n - 1)
      + if x.Asking? && Found(Tracked(signals, cfg, n - 1), x.trade, cfg).Some? then 1 else 0
  }

  /** The detector counts them. */
  lemma {:induction false} CandidatesAreCounted(signals: seq<Signal>, cfg: AbsorptionConfig, n: nat)
    requires cfg.minVolume > 0 && n <= |signals|
    ensures Tracked(signals, cfg, n).count == FoundIn(signals, cfg, n)
  {
    hide Evaluated, Opened, Hit, AllReplenished, AllFaced;
    if n > 0 { CandidatesAreCounted(signals, cfg, n - 1); }
  }

  lemma ExcursionExactly(d: nat, tick: nat, most: nat)
    requires tick > 0
    ensures d / tick <= most <==> d < (most + 1) * tick
  {
    assert d == tick * (d / tick) + d % tick;
    if d / tick <= most { ProductMonotone(tick, d / tick, most); }
    if d / tick > most { ProductMonotone(tick, most + 1, d / tick); }
  }

  /** Past the gates the confidence is 0.3, and 0.35 for a price that did not move at all, 0.2 for volume that was
      all refilled, 0.15 for opposing liquidity that stayed, each in proportion. */
  lemma ConfidenceParts(w: Window, cfg: AbsorptionConfig)
    requires cfg.minVolume > 0 && Gates(w, cfg)
    ensures exists moved: real, refilled: real, stayed: real ::
      && Confidence(w, cfg) == 0.30 + 0.35 * (1.0 - moved) + 0.20 * refilled + 0.15 * stayed
      && InProportion(w, cfg, moved, refilled, stayed)
  {
    var e, all := Excursion(cfg), w.replenished + w.volume;
    var moved := DisplacedTicks(w, cfg) as real / e as real;
    var refilled := w.replenished as real / all as real;
    var stayed :=
      if w.opposingClose >= w.opposingOpen then 1.0 else w.opposingClose as real / w.opposingOpen as real;
    hide InProportion;
    S.RatioAtLeast(w.volume as real, cfg.minVolume as real, 1.0);
    RatioInUnit(DisplacedTicks(w, cfg), e);
    RatioInUnit(w.replenished, all);
    if w.opposingOpen > 0 { RatioCut(w.opposingClose, w.opposingOpen); }
    ScoresInProportion(w, cfg);
    assert InProportion(w, cfg, moved, refilled, stayed);
  }

  lemma ScoresInProportion(w: Window, cfg: AbsorptionConfig)
    requires w.replenished + w.volume > 0
    ensures InProportion(w, cfg, DisplacedTicks(w, cfg) as real / Excursion(cfg) as real,
                         w.replenished as real / (w.replenished + w.volume) as real,
                         if w.opposingClose >= w.opposingOpen then 1.0
                         else w.opposingClose as real / w.opposingOpen as real)
  {
    QuotientBack(DisplacedTicks(w, cfg) as real, Excursion(cfg) as real);
    QuotientBack(w.replenished as real, (w.replenished + w.volume) as real);
    if w.opposingClose < w.opposingOpen { QuotientBack(w.opposingClose as real, w.opposingOpen as real); }
  }

  lemma QuotientBack(x: real, total: real)
    requires total > 0.0
    ensures x / total * total == x
  {
  }

  predicate InProportion(w: Window, cfg: AbsorptionConfig, moved: real, refilled: real, stayed: real) {
    && moved * Larger(1, cfg.maxExcursion) as real == (w.displacement / Larger(1, cfg.tickSize)) as real
    && refilled * (w.replenished + w.volume) as real == w.replenished as real
    && (if w.opposingClose >= w.opposingOpen then stayed == 1.0
        else stayed * w.opposingOpen as real == w.opposingClose as real)
  }

  lemma RatioInUnit(a: nat, b: nat)
    requires b > 0 && a <= b
    ensures 0.0 <= a as real / b as real <= 1.0 && a as real / b as real * b as real == a as real
  {
    S.RatioAtMostOne(a as real, b as real);
    S.RatioAtLeast(a as real, b as real, 0.0);
  }

  lemma RatioCut(a: nat, b: nat)
    requires b > 0
    ensures a >= b ==> a as real / b as real >= 1.0
    ensures a < b ==> 0.0 <= a as real / b as real <= 1.0 && a as real / b as real * b as real == a as real
  {
    if a >= b { S.RatioAtLeast(a as real, b as real, 1.0); } else { RatioInUnit(a, b); }
  }
}
