/** Sweep candidates in terms of the trades of a cluster. */
module SweepRuns {
  import opened Arithmetic
  import opened Clusters
  import opened ClusterRuns
  import opened Sweeps
  import opened Wire

  /** `r` is the part that `part` is of `all`. */
  predicate IsPart(r: real, part: nat, all: nat) {
    if all == 0 then r == 0.0 else r * all as real == part as real
  }

  /** Volume of the leading side: the one with more, the buyers' if both have the same. */
  function LeadingVolume(run: seq<Trade>): nat {
    var buy, sell := SideVolume(run, Buy), SideVolume(run, Sell);
    if sell > buy then sell else buy
  }

  /** The side of a cluster is the leading one, and its dominance is the part of the volume that this side has. */
  lemma LeadingSide(run: seq<Trade>)
    requires run != []
    ensures Summary(run).dominant == (if SideVolume(run, Sell) > SideVolume(run, Buy) then Sell else Buy)
    ensures IsPart(Summary(run).dominance, LeadingVolume(run), SideVolume(run, Buy) + SideVolume(run, Sell))
  {
    hide IsPart, SideVolume, PriceChanges, Progresses, Highest, Lowest, Biggest;
    DominanceIsPart(SideVolume(run, Buy), SideVolume(run, Sell));
  }

  lemma DominanceIsPart(buy: nat, sell: nat)
    ensures IsPart(Dominance(buy, sell), if sell > buy then sell else buy, buy + sell)
  {
    if buy + sell > 0 { PartBack(Larger(buy, sell), buy + sell); }
  }

  lemma PartBack(part: nat, all: nat)
    requires all > 0
    ensures part as real / all as real * all as real == part as real
  {
  }

  /** 80 percent of all the volume and 20 percent of the leading side's reach the threshold times the volume. */
  predicate Reaches(part: nat, all: nat, threshold: real) {
    0.8 * all as real + 0.2 * part as real >= threshold * all as real
  }

  /** A cluster of the tracker is a sweep candidate if and only if its last trade comes no later than the sweep
      window after the first, it counts enough levels and volume, carries the flag, and its volumes reach the
      threshold. */
  lemma SweepAcceptedExactly(detector: SweepDetector, run: seq<Trade>)
    requires run != [] && detector.cfg.minLevels > 0 && detector.cfg.minVolume > 0
    ensures var cfg, all := detector.cfg, SideVolume(run, Buy) + SideVolume(run, Sell);
      detector.Candidate(Summary(run)).Some?
      <==> run[|run| - 1].tradeTime <= run[0].tradeTime + cfg.window
           && 1 + PriceChanges(run) >= cfg.minLevels && Progresses(run) && all >= cfg.minVolume
           && Reaches(LeadingVolume(run), all, cfg.threshold)
  {
    hide SideVolume, PriceChanges, Progresses, Highest, Lowest, Biggest, Dominance, Dominant, IsPart, Reaches;
    hide Confidence, LeadingVolume;
    var all := SideVolume(run, Buy) + SideVolume(run, Sell);
    AcceptanceIsExact(detector, run);
    LeadingSide(run);
    if all > 0 { ReachesExactly(Summary(run).dominance, LeadingVolume(run), all, detector.cfg.threshold); }
  }

  lemma ReachesExactly(d: real, part: nat, all: nat, threshold: real)
    requires all > 0 && IsPart(d, part, all)
    ensures 0.8 + 0.2 * d >= threshold <==> Reaches(part, all, threshold)
  {
    var v, gap := all as real, 0.8 + 0.2 * d - threshold;
    Expands(d, threshold, v);
    SignKept(gap, v);
  }

  lemma Expands(d: real, threshold: real, v: real)
    ensures (0.8 + 0.2 * d - threshold) * v == 0.8 * v + 0.2 * (d * v) - threshold * v
  {
  }

  lemma SignKept(gap: real, all: real)
    requires all > 0.0
    ensures gap >= 0.0 <==> gap * all >= 0.0
  {
  }

  /** What a candidate reports. */
  lemma SweepReports(detector: SweepDetector, run: seq<Trade>)
    requires run != [] && detector.cfg.minLevels > 0 && detector.cfg.minVolume > 0
    requires detector.Candidate(Summary(run)).Some?
    ensures var s, first, last := detector.Candidate(Summary(run)).value, run[0], run[|run| - 1];
      && s.start == first.tradeTime && s.end == last.tradeTime
      && s.firstPrice == first.price && s.lastPrice == last.price
      && s.levels == 1 + PriceChanges(run) && s.volume == SideVolume(run, Buy) + SideVolume(run, Sell)
      && (if s.end >= s.start then s.start + s.duration == s.end else s.duration == 0)
      && s.side == (if SideVolume(run, Sell) > SideVolume(run, Buy) then Sell else Buy)
      && (s.side == Buy ==> if last.price >= first.price then first.price + s.displacement == last.price
                            else s.displacement == 0)
      && (s.side == Sell ==> if first.price >= last.price then last.price + s.displacement == first.price
                             else s.displacement == 0)
  {
    hide SideVolume, PriceChanges, Progresses, Highest, Lowest, Biggest, Dominance;
  }
}
