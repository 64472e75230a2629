/** Absorption candidates: windows of aggressive trades at a price that does not give way
    (src/analytics/absorption.rs), over exact reals. */
module Absorption {
  import opened Arithmetic
  import opened Options
  import opened Wire
  import S = Sweeps

  datatype AbsorptionConfig = AbsorptionConfig(
    window: nat,
    minVolume: nat,
    minTrades: nat,
    maxExcursion: nat,
    tickSize: nat,
    threshold: real)

  datatype Window = Window(
    price: nat,
    side: Aggressor,
    openAt: nat,
    closeAt: nat,
    reference: nat,
    trades: nat,
    volume: nat,
    displacement: nat,
    opposingOpen: nat,
    opposingClose: nat,
    replenished: nat)

  datatype Candidate = Candidate(window: Window, confidence: real)

  type Windows = map<nat, Window>

  datatype AbsorptionState = AbsorptionState(windows: Windows, count: nat)

  const NoAbsorption := AbsorptionState(map[], 0)

  predicate Live(w: Window, time: nat, cfg: AbsorptionConfig) {
    Saturating(time, w.openAt) <= cfg.window
  }

  function Opened(t: Trade, best: nat, opposing: nat): Window {
    Window(t.price, t.aggressor, t.tradeTime, t.tradeTime, best, 1, t.quantity, 0, opposing, opposing, 0)
  }

  /** How far the best price has moved with the aggressor. */
  function Favorable(w: Window, t: Trade, best: nat): nat {
    if t.aggressor == Buy then Saturating(best, w.reference) else Saturating(w.reference, best)
  }

  function Hit(w: Window, t: Trade, best: nat): Window {
    w.(trades := w.trades + 1, volume := w.volume + t.quantity,
    displacement := Larger(w.displacement, Favorable(w, t, best)), closeAt := t.tradeTime)
  }

  /** Passive levels on the far side of the reference price. */
  predicate Opposes(w: Window, price: nat) {
    if w.side == Buy then price > w.reference else price < w.reference
  }

  function Replenished(w: Window, price: nat, amount: nat, time: nat, cfg: AbsorptionConfig): Window {
    if Opposes(w, price) && Live(w, time, cfg) then w.(replenished := w.replenished + amount) else w
  }

  function Faced(w: Window, price: nat, quantity: nat, time: nat, cfg: AbsorptionConfig): Window {
    if Opposes(w, price) && Live(w, time, cfg) then w.(opposingClose := quantity) else w
  }

  function AllReplenished(ws: Windows, price: nat, amount: nat, time: nat, cfg: AbsorptionConfig): Windows {
    map p | p in ws :: Replenished(ws[p], price, amount, time, cfg)
  }

  function AllFaced(ws: Windows, price: nat, quantity: nat, time: nat, cfg: AbsorptionConfig): Windows {
    map p | p in ws :: Faced(ws[p], price, quantity, time, cfg)
  }

  function Excursion(cfg: AbsorptionConfig): nat {
    Larger(cfg.maxExcursion, 1)
  }

  function DisplacedTicks(w: Window, cfg: AbsorptionConfig): nat {
    w.displacement / Larger(cfg.tickSize, 1)
  }

  /** Trades, volume and excursion. */
  predicate Gates(w: Window, cfg: AbsorptionConfig) {
    w.trades >= cfg.minTrades && w.volume >= cfg.minVolume && DisplacedTicks(w, cfg) <= Excursion(cfg)
  }

  function Confidence(w: Window, cfg: AbsorptionConfig): real
    requires cfg.minVolume > 0
  {
    var volumeScore := S.Clamped(w.volume as real / cfg.minVolume as real);
    var failureScore := 1.0 - S.Clamped(DisplacedTicks(w, cfg) as real / Excursion(cfg) as real);
    var all := w.replenished + w.volume;
    var replenishmentScore := if all == 0 then 0.0 else S.Clamped(w.replenished as real / all as real);
    var persistenceScore :=
      if w.opposingOpen == 0 then 1.0 else S.Clamped(w.opposingClose as real / w.opposingOpen as real);
    0.30 * volumeScore + 0.35 * failureScore + 0.20 * replenishmentScore + 0.15 * persistenceScore
  }

  function Evaluated(w: Window, cfg: AbsorptionConfig): (r: Option<Candidate>)
    requires cfg.minVolume > 0
    ensures r.Some? <==> Gates(w, cfg) && Confidence(w, cfg) >= cfg.threshold
    ensures r.Some? ==> r.value.window == w
  {
    if Gates(w, cfg) && Confidence(w, cfg) >= cfg.threshold then Some(Candidate(w, Confidence(w, cfg))) else None
  }

  /** The trade that finds its window expired closes it and is dropped. */
  function Expires(s: AbsorptionState, t: Trade, cfg: AbsorptionConfig): bool {
    t.price in s.windows && !Live(s.windows[t.price], t.tradeTime, cfg)
  }

  function Asked(s: AbsorptionState, t: Trade, best: nat, opposing: nat, cfg: AbsorptionConfig): AbsorptionState
    requires cfg.minVolume > 0
  {
    if t.price !in s.windows then s.(windows := s.windows[t.price := Opened(t, best, opposing)])
    else if Expires(s, t, cfg) then
      AbsorptionState(s.windows - {t.price},
                      if Evaluated(s.windows[t.price], cfg).Some? then s.count + 1 else s.count)
    else s.(windows := s.windows[t.price := Hit(s.windows[t.price], t, best)])
  }

  function Found(s: AbsorptionState, t: Trade, cfg: AbsorptionConfig): Option<Candidate>
    requires cfg.minVolume > 0
  {
    if Expires(s, t, cfg) then Evaluated(s.windows[t.price], cfg) else None
  }

  class AbsorptionDetector {
    const cfg: AbsorptionConfig
    var windows: Windows
    var count: nat

    ghost function View(): AbsorptionState
      reads this
    {
      AbsorptionState(windows, count)
    }

    constructor (cfg: AbsorptionConfig)
      ensures View() == NoAbsorption && this.cfg == cfg
    {
      this.cfg, windows, count := cfg, map[], 0;
    }

    method OnTrade(t: Trade, best: nat, opposing: nat) returns (r: Option<Candidate>)
      requires cfg.minVolume > 0
      modifies this
      ensures View() == Asked(old(View()), t, best, opposing, cfg)
      ensures r == Found(old(View()), t, cfg)
    {
      hide Evaluated;
      r := None;
      if t.price !in windows {
        windows := windows[t.price := Opened(t, best, opposing)];
        return;
      }
      var w := windows[t.price];
      if Saturating(t.tradeTime, w.openAt) > cfg.window {
        windows := windows - {t.price};
        r := Evaluate(w);
        return;
      }
      w := w.(trades := w.trades + 1, volume := w.volume + t.quantity);
      var moved := if t.aggressor == Buy then Saturating(best, w.reference) else Saturating(w.reference, best);
      w := w.(displacement := Larger(w.displacement, moved), closeAt := t.tradeTime);
      windows := windows[t.price := w];
    }

    method Evaluate(w: Window) returns (r: Option<Candidate>)
      requires cfg.minVolume > 0
      modifies this`count
      ensures r == Evaluated(w, cfg)
      ensures count == old(count) + if r.Some? then 1 else 0
    {
      if w.trades < cfg.minTrades { return None; }
      if w.volume < cfg.minVolume { return None; }
      if DisplacedTicks(w, cfg) > Excursion(cfg) { return None; }
      var confidence := Confidence(w, cfg);
      if confidence < cfg.threshold { return None; }
      count := count + 1;
      r := Some(Candidate(w, confidence));
    }

    method OnLiquidityChange(price: nat, amount: nat, time: nat)
      modifies this`windows
      ensures windows == AllReplenished(old(windows), price, amount, time, cfg)
    {
      ghost var before := windows;
      var keys := windows.Keys;
      while keys != {}
        invariant windows.Keys == before.Keys && keys <= windows.Keys
        invariant forall p | p in keys :: windows[p] == before[p]
        invariant forall p | p in windows && p !in keys ::
          windows[p] == Replenished(before[p], price, amount, time, cfg)
        decreases keys
      {
        var p :| p in keys;
        windows := windows[p := Replenished(windows[p], price, amount, time, cfg)];
        keys := keys - {p};
      }
    }

    method OnOpposingLiquidity(price: nat, quantity: nat, time: nat)
      modifies this`windows
      ensures windows == AllFaced(old(windows), price, quantity, time, cfg)
    {
      ghost var before := windows;
      var keys := windows.Keys;
      while keys != {}
        invariant windows.Keys == before.Keys && keys <= windows.Keys
        invariant forall p | p in keys :: windows[p] == before[p]
        invariant forall p | p in windows && p !in keys :: windows[p] == Faced(before[p], price, quantity, time, cfg)
        decreases keys
      {
        var p :| p in keys;
        windows := windows[p := Faced(windows[p], price, quantity, time, cfg)];
        keys := keys - {p};
      }
    }
  }

  /** Past the gates the volume score is 1, so that a threshold of at most 0.3 never decides. */
  lemma EvaluationIsExact(w: Window, cfg: AbsorptionConfig)
    requires cfg.minVolume > 0
    ensures Gates(w, cfg) ==> 0.3 <= Confidence(w, cfg) <= 1.0
    ensures cfg.threshold <= 0.3 ==> (Evaluated(w, cfg).Some? <==> Gates(w, cfg))
  {
    if Gates(w, cfg) { S.RatioAtLeast(w.volume as real, cfg.minVolume as real, 1.0); }
  }
}
