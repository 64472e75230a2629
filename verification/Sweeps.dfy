/** Sweep candidates from closed clusters (src/analytics/sweeps.rs), over exact reals. */
module Sweeps {
  import opened Arithmetic
  import opened Clusters
  import opened ClusterRuns
  import opened Options
  import opened Wire

  datatype SweepConfig = SweepConfig(window: nat, minLevels: nat, minVolume: nat, threshold: real)

  datatype Sweep = Sweep(
    side: Aggressor,
    start: nat,
    end: nat,
    levels: nat,
    volume: nat,
    displacement: nat,
    firstPrice: nat,
    lastPrice: nat,
    duration: nat,
    confidence: real)

  function Duration(c: Cluster): nat {
    if c.end < c.start then 0 else c.end - c.start
  }

  /** Restrict a score to [0, 1]. */
  function Clamped(x: real): (r: real)
    ensures 0.0 <= r <= 1.0
    ensures x >= 1.0 ==> r == 1.0
    ensures x <= 0.0 ==> r == 0.0
    ensures 0.0 <= x <= 1.0 ==> r == x
  {
    if x < 0.0 then 0.0 else if x > 1.0 then 1.0 else x
  }

  function Confidence(c: Cluster, cfg: SweepConfig): real
    requires cfg.minLevels > 0 && cfg.minVolume > 0
  {
    var levelScore := Clamped(c.levels as real / cfg.minLevels as real);
    var volumeScore := Clamped(c.volume as real / cfg.minVolume as real);
    var timeScore := if Duration(c) == 0 then 1.0 else Clamped(cfg.window as real / Duration(c) as real);
    0.35 * levelScore + 0.30 * volumeScore + 0.20 * c.dominance + 0.15 * timeScore
  }

  function Displacement(c: Cluster): nat {
    var from, until := if c.dominant == Buy then c.firstPrice else c.lastPrice,
                       if c.dominant == Buy then c.lastPrice else c.firstPrice;
    if until < from then 0 else until - from
  }

  /** Duration, levels, direction and volume. */
  predicate Gates(c: Cluster, cfg: SweepConfig) {
    Duration(c) <= cfg.window && c.levels >= cfg.minLevels && c.monotonic && c.volume >= cfg.minVolume
  }

  function CandidateOf(c: Cluster, cfg: SweepConfig): (r: Option<Sweep>)
    requires cfg.minLevels > 0 && cfg.minVolume > 0
    ensures r.Some? <==> Gates(c, cfg) && c.dominance >= 0.5 && Confidence(c, cfg) >= cfg.threshold
    ensures r.Some? ==> r.value.confidence == Confidence(c, cfg) && r.value.side == c.dominant
  {
    if Duration(c) > cfg.window || c.levels < cfg.minLevels || !c.monotonic || c.volume < cfg.minVolume
       || c.dominance < 0.5 then None
    else if Confidence(c, cfg) < cfg.threshold then None
    else
      Some(Sweep(c.dominant, c.start, c.end, c.levels, c.volume, Displacement(c), c.firstPrice, c.lastPrice,
                 Duration(c), Confidence(c, cfg)))
  }

  class SweepDetector {
    const cfg: SweepConfig
    var count: nat

    constructor (cfg: SweepConfig)
      ensures this.cfg == cfg && count == 0
    {
      this.cfg, count := cfg, 0;
    }

    /** The evidence for a candidate, without counting it. */
    function Candidate(c: Cluster): (r: Option<Sweep>)
      requires cfg.minLevels > 0 && cfg.minVolume > 0
      ensures r.Some? <==> Gates(c, cfg) && c.dominance >= 0.5 && Confidence(c, cfg) >= cfg.threshold
    {
      CandidateOf(c, cfg)
    }

    method OnCluster(c: Cluster) returns (r: Option<Sweep>)
      requires cfg.minLevels > 0 && cfg.minVolume > 0
      modifies this
      ensures r == CandidateOf(c, cfg)
      ensures count == old(count) + if r.Some? then 1 else 0
    {
      var duration := Duration(c);
      if duration > cfg.window { return None; }
      if c.levels < cfg.minLevels { return None; }
      if !c.monotonic { return None; }
      if c.volume < cfg.minVolume { return None; }
      if c.dominance < 0.5 { return None; }
      var displacement: nat;
      if c.dominant == Buy {
        displacement := if c.lastPrice < c.firstPrice then 0 else c.lastPrice - c.firstPrice;
      } else {
        displacement := if c.firstPrice < c.lastPrice then 0 else c.firstPrice - c.lastPrice;
      }
      var confidence := Confidence(c, cfg);
      if confidence < cfg.threshold { return None; }
      count := count + 1;
      r := Some(Sweep(c.dominant, c.start, c.end, c.levels, c.volume, displacement, c.firstPrice, c.lastPrice,
                      duration, confidence));
    }
  }

  lemma ProductOrder(x: real, y: real, b: real)
    requires b > 0.0
    ensures x < y ==> x * b < y * b
  {
  }

  lemma RatioAtLeast(a: real, b: real, q: real)
    requires b > 0.0 && a >= q * b
    ensures a / b >= q
  {
    ProductOrder(a / b, q, b);
  }

  lemma RatioAtMostOne(a: real, b: real)
    requires b > 0.0 && a <= b
    ensures a / b <= 1.0
  {
    ProductOrder(1.0, a / b, b);
  }

  /** The leading side has at least half of the volume and at most all of it. */
  lemma DominanceIsMajority(run: seq<Trade>)
    requires run != [] && Summary(run).volume > 0
    ensures 0.5 <= Summary(run).dominance <= 1.0
  {
    var buy, sell := SideVolume(run, Buy), SideVolume(run, Sell);
    RatioAtLeast(Larger(buy, sell) as real, (buy + sell) as real, 0.5);
    RatioAtMostOne(Larger(buy, sell) as real, (buy + sell) as real);
  }

  /** Past the four gates the level, volume and time scores are all 1. */
  lemma GatesFixConfidence(c: Cluster, cfg: SweepConfig)
    requires cfg.minLevels > 0 && cfg.minVolume > 0 && Gates(c, cfg)
    ensures Confidence(c, cfg) == 0.8 + 0.2 * c.dominance
  {
    RatioAtLeast(c.levels as real, cfg.minLevels as real, 1.0);
    RatioAtLeast(c.volume as real, cfg.minVolume as real, 1.0);
    if Duration(c) > 0 {
      RatioAtLeast(cfg.window as real, Duration(c) as real, 1.0);
    }
  }

  /** Clusters of a tracker: the detector accepts exactly those that pass the four gates with enough
      dominance for the threshold; the dominance gate never decides, and for a threshold of at most
      0.9 the threshold does not decide either. */
  lemma AcceptanceIsExact(detector: SweepDetector, run: seq<Trade>)
    requires run != [] && detector.cfg.minLevels > 0 && detector.cfg.minVolume > 0
    ensures var c, cfg := Summary(run), detector.cfg;
      && (Gates(c, cfg) ==> 0.9 <= Confidence(c, cfg) <= 1.0 && c.dominance >= 0.5)
      && (detector.Candidate(c).Some? <==> Gates(c, cfg) && 0.8 + 0.2 * c.dominance >= cfg.threshold)
      && (cfg.threshold <= 0.9 ==> (detector.Candidate(c).Some? <==> Gates(c, cfg)))
  {
    var c, cfg := Summary(run), detector.cfg;
    if Gates(c, cfg) {
      DominanceIsMajority(run);
      GatesFixConfidence(c, cfg);
    }
  }

  /** Every accepted sweep of one-sided trades is a sorted run over at least the configured number of
      distinct prices, displaced by exactly the span of the run. */
  lemma AcceptedOneSidedSweep(detector: SweepDetector, run: seq<Trade>, side: Aggressor)
    requires run != [] && OneSided(run, side) && detector.cfg.minLevels > 0 && detector.cfg.minVolume > 0
    requires detector.Candidate(Summary(run)).Some?
    ensures Sorted(run, side) && |Prices(run)| >= detector.cfg.minLevels
    ensures var c := Summary(run); Displacement(c) == c.high - c.low && c.dominant == side
  {
    MonotonicMeansSorted(run, side);
    SortedLevelsAreDistinctPrices(run, side);
    OneSidedLeader(run, side);
    SortedEnds(run, side);
  }

  /** In general an accepted sweep touches at least the configured number of distinct prices if and only if
      it returns to no more prices than it counts levels above that number; in particular if no price is
      returned to, or if one side leads every price change. */
  lemma AcceptedSweepPrices(detector: SweepDetector, run: seq<Trade>)
    requires run != [] && detector.cfg.minLevels > 0 && detector.cfg.minVolume > 0
    requires detector.Candidate(Summary(run)).Some?
    ensures |Prices(run)| >= detector.cfg.minLevels <==> Revisits(run) <= Summary(run).levels - detector.cfg.minLevels
    ensures NoReturn(run) ==> |Prices(run)| >= detector.cfg.minLevels
    ensures forall side | LedBy(run, side) :: Sorted(run, side) && |Prices(run)| >= detector.cfg.minLevels
  {
    LevelsCountReturns(run);
    NoReturnMeansNoRevisit(run);
    forall side | LedBy(run, side) ensures Sorted(run, side) && |Prices(run)| >= detector.cfg.minLevels {
      MonotonicExactly(run, side);
      SortedLevelsAreDistinctPrices(run, side);
    }
  }

  /** Some accepted sweep does not: up and back down counts three levels on two prices. */
  lemma ReversalIsAccepted(detector: SweepDetector, price: nat)
    requires detector.cfg.minLevels == 3 && 0 < detector.cfg.minVolume <= 6 && detector.cfg.threshold <= 0.9
    ensures detector.Candidate(Summary(Reversal(price))).Some? && |Prices(Reversal(price))| < detector.cfg.minLevels
  {
    ReversalKeepsFlag(price);
    AcceptanceIsExact(detector, Reversal(price));
  }

  lemma SortedEnds(run: seq<Trade>, side: Aggressor)
    requires run != [] && Sorted(run, side)
    ensures side == Buy ==> Lowest(run) == run[0].price && Highest(run) == Last(run).price
    ensures side == Sell ==> Highest(run) == run[0].price && Lowest(run) == Last(run).price
  {
    var n := |run|;
    forall i | 0 <= i < n
      ensures Directed(side, run[0].price, run[i].price) && Directed(side, run[i].price, run[n - 1].price)
    {
    }
  }
}
