/** Clusters partition the trade stream; each is the summary of its run of trades. */
module ClusterRuns {
  import opened Arithmetic
  import opened Clusters
  import opened Options
  import opened Wire

  /** A trade close enough to the one before it to join the same run. */
  predicate Near(a: Trade, b: Trade, p: Proximity) {
    (b.tradeTime <= a.tradeTime || b.tradeTime - a.tradeTime <= p.window) && Apart(b.price, a.price) <= p.range
  }

  function Last(run: seq<Trade>): Trade
    requires run != []
  {
    run[|run| - 1]
  }

  function Front(run: seq<Trade>): seq<Trade>
    requires run != []
  {
    run[..|run| - 1]
  }

  /** Volume of one side. */
  function SideVolume(run: seq<Trade>, side: Aggressor): nat {
    if run == [] then 0
    else SideVolume(Front(run), side) + if Last(run).aggressor == side then Last(run).quantity else 0
  }

  function Highest(run: seq<Trade>): (r: nat)
    requires run != []
    ensures exists i | 0 <= i < |run| :: run[i].price == r
    ensures forall i | 0 <= i < |run| :: run[i].price <= r
  {
    if |run| == 1 then run[0].price else Larger(Highest(Front(run)), Last(run).price)
  }

  function Lowest(run: seq<Trade>): (r: nat)
    requires run != []
    ensures exists i | 0 <= i < |run| :: run[i].price == r
    ensures forall i | 0 <= i < |run| :: r <= run[i].price
  {
    if |run| == 1 then run[0].price else Smaller(Lowest(Front(run)), Last(run).price)
  }

  function Biggest(run: seq<Trade>): (r: nat)
    ensures forall i | 0 <= i < |run| :: run[i].quantity <= r
    ensures run != [] ==> exists i | 0 <= i < |run| :: run[i].quantity == r
  {
    if run == [] then 0 else Larger(Biggest(Front(run)), Last(run).quantity)
  }

  /** How often the price differs from the one before. */
  function PriceChanges(run: seq<Trade>): nat
    requires run != []
  {
    if |run| == 1 then 0 else PriceChanges(Front(run)) + if Last(Front(run)).price != Last(run).price then 1 else 0
  }

  function Leader(run: seq<Trade>): Aggressor {
    Dominant(SideVolume(run, Buy), SideVolume(run, Sell))
  }

  /** Every price moves, if at all, in the direction of the side that led by volume until then. */
  predicate Progresses(run: seq<Trade>)
    requires run != []
  {
    |run| == 1 || (Progresses(Front(run)) && Directed(Leader(Front(run)), Last(Front(run)).price, Last(run).price))
  }

  /** The summary of a run. */
  function Summary(run: seq<Trade>): Cluster
    requires run != []
  {
    var buy, sell := SideVolume(run, Buy), SideVolume(run, Sell);
    Cluster(run[0].tradeTime, Last(run).tradeTime, Highest(run), Lowest(run), buy + sell, buy, sell, buy - sell,
            |run|, Biggest(run), Dominant(buy, sell), Dominance(buy, sell), 1 + PriceChanges(run), Progresses(run),
            run[0].price, Last(run).price)
  }

  lemma ExtremesGrow(run: seq<Trade>, t: Trade)
    requires run != []
    ensures Highest(run + [t]) == Larger(Highest(run), t.price)
    ensures Lowest(run + [t]) == Smaller(Lowest(run), t.price)
    ensures Biggest(run + [t]) == Larger(Biggest(run), t.quantity)
  {
    assert Front(run + [t]) == run;
  }

  lemma CountsGrow(run: seq<Trade>, t: Trade)
    requires run != []
    ensures forall side ::
      SideVolume(run + [t], side) == SideVolume(run, side) + if t.aggressor == side then t.quantity else 0
    ensures PriceChanges(run + [t]) == PriceChanges(run) + if Last(run).price != t.price then 1 else 0
    ensures Progresses(run + [t]) == (Progresses(run) && Directed(Leader(run), Last(run).price, t.price))
  {
    assert Front(run + [t]) == run;
  }

  lemma SummaryGrows(run: seq<Trade>, t: Trade)
    requires run != []
    ensures Summary(run + [t]) == Grown(Summary(run), t)
  {
    hide Dominance, Dominant, Directed, Larger, Smaller, Highest, Lowest, Biggest, SideVolume, PriceChanges, Progresses;
    ExtremesGrow(run, t);
    CountsGrow(run, t);
  }

  lemma SummaryStarts(t: Trade)
    ensures Summary([t]) == Grown(Started(t), t)
  {
    assert Front([t]) == [];
    assert SideVolume([t], Buy) == if t.aggressor == Buy then t.quantity else 0;
    assert SideVolume([t], Sell) == if t.aggressor == Sell then t.quantity else 0;
  }

  datatype Signal = Traded(trade: Trade) | Flush | PruneDue(now: nat)

  datatype Settings = Settings(proximity: Proximity, retention: nat)

  datatype Tracker = Tracker(open: Option<Cluster>, closed: seq<Cluster>)

  function Next(s: Tracker, x: Signal, cfg: Settings): Tracker {
    match x
    case Traded(t) =>
      Tracker(Some(Joined(s.open, t, cfg.proximity)),
              if Closes(s.open, t, cfg.proximity) then s.closed + [s.open.value] else s.closed)
    case Flush => if s.open.None? then s else Tracker(None, s.closed + [s.open.value])
    case PruneDue(now) => s.(closed := s.closed[Expired(s.closed, Saturating(now, cfg.retention))..])
  }

  function Tracked(signals: seq<Signal>, cfg: Settings, n: nat): Tracker
    requires n <= |signals|
  {
    if n == 0 then Tracker(None, []) else Next(Tracked(signals, cfg, n - 1), signals[n - 1], cfg)
  }

  /** The stream cut where a trade is not near the one before, or where it is flushed. */
  datatype Cut = Cut(ended: seq<seq<Trade>>, current: seq<Trade>)

  function CutStep(c: Cut, x: Signal, p: Proximity): Cut {
    match x
    case Traded(t) =>
      if c.current == [] then c.(current := [t])
      else if Near(Last(c.current), t, p) then c.(current := c.current + [t])
      else Cut(c.ended + [c.current], [t])
    case Flush => if c.current == [] then c else Cut(c.ended + [c.current], [])
    case PruneDue(_) => c
  }

  function CutAt(signals: seq<Signal>, cfg: Settings, n: nat): Cut
    requires n <= |signals|
  {
    if n == 0 then Cut([], []) else CutStep(CutAt(signals, cfg, n - 1), signals[n - 1], cfg.proximity)
  }

  function Stream(signals: seq<Signal>, n: nat): seq<Trade>
    requires n <= |signals|
  {
    if n == 0 then [] else Stream(signals, n - 1) + if signals[n - 1].Traded? then [signals[n - 1].trade] else []
  }

  function Concatenated(runs: seq<seq<Trade>>): seq<Trade> {
    if runs == [] then [] else Concatenated(runs[..|runs| - 1]) + runs[|runs| - 1]
  }

  /** Each trade of the run is near the one before. */
  ghost predicate Connected(run: seq<Trade>, p: Proximity) {
    forall i, j | 0 <= i < |run| && 0 <= j < |run| && j == i + 1 :: Near(run[i], run[j], p)
  }

  function Summaries(runs: seq<seq<Trade>>): (r: seq<Cluster>)
    requires forall i | 0 <= i < |runs| :: runs[i] != []
    ensures |r| == |runs|
    ensures forall i | 0 <= i < |r| :: r[i] == Summary(runs[i])
  {
    seq(|runs|, i requires 0 <= i < |runs| => Summary(runs[i]))
  }

  /** Closed clusters are the summaries of the last ended runs; the first `dropped` were pruned. */
  ghost predicate Describes(s: Tracker, c: Cut, dropped: nat) {
    && dropped <= |c.ended|
    && (forall i | 0 <= i < |c.ended| :: c.ended[i] != [])
    && s.closed == Summaries(c.ended)[dropped..]
    && s.open == if c.current == [] then None else Some(Summary(c.current))
  }

  ghost predicate AllConnected(c: Cut, p: Proximity) {
    (forall i | 0 <= i < |c.ended| :: Connected(c.ended[i], p)) && Connected(c.current, p)
  }

  lemma ConcatenatedAppend(runs: seq<seq<Trade>>, run: seq<Trade>)
    ensures Concatenated(runs + [run]) == Concatenated(runs) + run
  {
    assert (runs + [run])[..|runs|] == runs;
  }

  lemma CutKeepsStream(c: Cut, x: Signal, p: Proximity)
    ensures var r := CutStep(c, x, p);
      Concatenated(r.ended) + r.current == Concatenated(c.ended) + c.current + if x.Traded? then [x.trade] else []
  {
    hide Near, Concatenated;
    ConcatenatedAppend(c.ended, c.current);
  }

  lemma CutStaysConnected(c: Cut, x: Signal, p: Proximity)
    requires AllConnected(c, p)
    ensures AllConnected(CutStep(c, x, p), p)
  {
    hide Near;
  }

  lemma NearFits(run: seq<Trade>, t: Trade, p: Proximity)
    requires run != []
    ensures Fits(Summary(run), t, p) == Near(Last(run), t, p)
  {
  }

  lemma SummariesAppend(runs: seq<seq<Trade>>, run: seq<Trade>, dropped: nat)
    requires (forall i | 0 <= i < |runs| :: runs[i] != []) && run != [] && dropped <= |runs|
    ensures Summaries(runs + [run])[dropped..] == Summaries(runs)[dropped..] + [Summary(run)]
  {
  }

  lemma SignalDescribed(s: Tracker, c: Cut, dropped: nat, x: Signal, cfg: Settings) returns (next: nat)
    requires Describes(s, c, dropped)
    ensures Describes(Next(s, x, cfg), CutStep(c, x, cfg.proximity), next)
  {
    hide Summary, Grown, Fits, Near;
    next := dropped;
    match x {
      case Traded(t) =>
        SummaryStarts(t);
        if c.current != [] {
          NearFits(c.current, t, cfg.proximity);
          SummaryGrows(c.current, t);
          SummariesAppend(c.ended, c.current, dropped);
        }
      case Flush =>
        if c.current != [] { SummariesAppend(c.ended, c.current, dropped); }
      case PruneDue(now) =>
        next := dropped + Expired(s.closed, Saturating(now, cfg.retention));
        assert Summaries(c.ended)[next..] == Summaries(c.ended)[dropped..][next - dropped..];
    }
  }

  /** Closed clusters, pruned ones included, followed by the open one are consecutive runs whose
      concatenation is the trade stream, and every cluster is the summary of its run. */
  lemma {:induction false} ClustersPartitionStream(signals: seq<Signal>, cfg: Settings, n: nat)
    requires n <= |signals|
    ensures var c := CutAt(signals, cfg, n);
      && Concatenated(c.ended) + c.current == Stream(signals, n)
      && AllConnected(c, cfg.proximity)
      && exists dropped :: Describes(Tracked(signals, cfg, n), c, dropped)
  {
    hide Describes, AllConnected, Next, CutStep;
    if n == 0 {
      StartDescribed(cfg.proximity);
      assert Describes(Tracked(signals, cfg, n), CutAt(signals, cfg, n), 0);
    } else {
      ClustersPartitionStream(signals, cfg, n - 1);
      var s, c, x := Tracked(signals, cfg, n - 1), CutAt(signals, cfg, n - 1), signals[n - 1];
      var dropped :| Describes(s, c, dropped);
      CutKeepsStream(c, x, cfg.proximity);
      CutStaysConnected(c, x, cfg.proximity);
      var next := SignalDescribed(s, c, dropped, x, cfg);
      assert CutAt(signals, cfg, n) == CutStep(c, x, cfg.proximity);
      assert Describes(Tracked(signals, cfg, n), CutAt(signals, cfg, n), next);
      assert AllConnected(CutAt(signals, cfg, n), cfg.proximity);
    }
  }

  lemma StartDescribed(p: Proximity)
    ensures Describes(Tracker(None, []), Cut([], []), 0) && AllConnected(Cut([], []), p)
  {
  }

  /** A run is no wider than its steps allow. */
  lemma {:induction false} RunIsNarrow(run: seq<Trade>, p: Proximity)
    requires run != [] && Connected(run, p)
    ensures Summary(run).high - Summary(run).low <= p.range * (|run| - 1)
  {
    hide Near;
    if |run| == 1 {
    } else {
      var front := Front(run);
      assert Connected(front, p) by { FrontConnected(run, p); }
      RunIsNarrow(front, p);
      LastStep(run, p);
      assert p.range * (|run| - 1) == p.range * (|front| - 1) + p.range;
    }
  }

  lemma FrontConnected(run: seq<Trade>, p: Proximity)
    requires run != [] && Connected(run, p)
    ensures Connected(Front(run), p)
  {
  }

  lemma LastStep(run: seq<Trade>, p: Proximity)
    requires |run| > 1 && Connected(run, p)
    ensures Lowest(Front(run)) - p.range <= Last(run).price <= Highest(Front(run)) + p.range
  {
    assert Near(run[|run| - 2], run[|run| - 1], p);
    assert Front(run)[|run| - 2] == run[|run| - 2];
  }

  ghost predicate OneSided(run: seq<Trade>, side: Aggressor) {
    forall i | 0 <= i < |run| :: run[i].aggressor == side && run[i].quantity > 0
  }

  /** Prices never move against the side. */
  ghost predicate Sorted(run: seq<Trade>, side: Aggressor) {
    forall i, j | 0 <= i < j < |run| :: Directed(side, run[i].price, run[j].price)
  }

  lemma {:induction false} OneSidedLeader(run: seq<Trade>, side: Aggressor)
    requires run != [] && OneSided(run, side)
    ensures Leader(run) == side
    ensures SideVolume(run, side) > 0 && SideVolume(run, if side == Buy then Sell else Buy) == 0
  {
    if |run| == 1 {
      assert Front(run) == [];
    } else {
      OneSidedLeader(Front(run), side);
    }
  }

  /** On a one-sided run the flag says exactly that the prices are sorted in the direction of the
      aggressor. */
  lemma MonotonicMeansSorted(run: seq<Trade>, side: Aggressor)
    requires run != [] && OneSided(run, side)
    ensures Summary(run).monotonic <==> Sorted(run, side)
  {
    OneSidedIsLed(run, side);
    MonotonicExactly(run, side);
  }

  lemma {:induction false} OneSidedIsLed(run: seq<Trade>, side: Aggressor)
    requires run != [] && OneSided(run, side)
    ensures LedBy(run, side)
    decreases |run|
  {
    hide Leader;
    if |run| > 1 {
      OneSidedIsLed(Front(run), side);
      OneSidedLeader(Front(run), side);
    }
  }

  lemma SortedExtends(run: seq<Trade>, side: Aggressor)
    requires |run| > 1
    ensures Sorted(run, side) <==> Sorted(Front(run), side) && Directed(side, Last(Front(run)).price, Last(run).price)
  {
    var n, front := |run|, Front(run);
    if Sorted(run, side) {
      assert Directed(side, run[n - 2].price, run[n - 1].price);
    }
    if Sorted(front, side) && Directed(side, run[n - 2].price, run[n - 1].price) {
      forall i, j | 0 <= i < j < n ensures Directed(side, run[i].price, run[j].price) {
        if j == n - 1 && i < n - 2 { assert Directed(side, front[i].price, front[n - 2].price); }
        if j < n - 1 { assert Directed(side, front[i].price, front[j].price); }
      }
    }
  }

  function Prices(run: seq<Trade>): set<nat> {
    set i | 0 <= i < |run| :: run[i].price
  }

  lemma PricesGrow(run: seq<Trade>)
    requires run != []
    ensures Prices(run) == Prices(Front(run)) + {Last(run).price}
  {
  }

  /** If the prices are sorted, the level count is the number of distinct prices. */
  lemma SortedLevelsAreDistinctPrices(run: seq<Trade>, side: Aggressor)
    requires run != [] && Sorted(run, side)
    ensures Summary(run).levels == |Prices(run)|
  {
    SortedHasNoReturn(run, side);
    LevelsAreDistinctPricesExactly(run);
  }

  /** Price changes that come back to a price of the run. */
  function Revisits(run: seq<Trade>): nat
    requires run != []
  {
    if |run| == 1 then 0
    else
      Revisits(Front(run))
      + if Last(Front(run)).price != Last(run).price && Last(run).price in Prices(Front(run)) then 1 else 0
  }

  /** No price is left and returned to. */
  ghost predicate NoReturn(run: seq<Trade>) {
    forall i, j, k | 0 <= i < j < k < |run| && run[i].price == run[k].price :: run[j].price == run[i].price
  }

  /** The level count is the number of distinct prices plus the number of returns. */
  lemma {:induction false} LevelsCountReturns(run: seq<Trade>)
    requires run != []
    ensures Summary(run).levels == |Prices(run)| + Revisits(run)
    decreases |run|
  {
    hide Prices;
    PricesGrow(run);
    if |run| == 1 {
      NoPrices(Front(run));
    } else {
      LevelsCountReturns(Front(run));
      LastPriceIn(Front(run));
      if Last(run).price in Prices(Front(run)) { assert Prices(run) == Prices(Front(run)); }
    }
  }

  lemma NoPrices(run: seq<Trade>)
    requires run == []
    ensures Prices(run) == {}
  {
  }

  lemma LastPriceIn(run: seq<Trade>)
    requires run != []
    ensures Last(run).price in Prices(run)
  {
    assert run[|run| - 1].price == Last(run).price;
  }

  lemma {:induction false} NoReturnMeansNoRevisit(run: seq<Trade>)
    requires run != []
    ensures NoReturn(run) <==> Revisits(run) == 0
    decreases |run|
  {
    hide NoReturn;
    if |run| == 1 {
      ShortHasNoReturn(run);
    } else {
      NoReturnMeansNoRevisit(Front(run));
      NoReturnExtends(run);
    }
  }

  lemma ShortHasNoReturn(run: seq<Trade>)
    requires |run| == 1
    ensures NoReturn(run)
  {
  }

  lemma NoReturnExtends(run: seq<Trade>)
    requires |run| > 1
    ensures NoReturn(run) <==>
      NoReturn(Front(run)) && (Last(Front(run)).price == Last(run).price || Last(run).price !in Prices(Front(run)))
  {
    var n, front := |run|, Front(run);
    assert forall i | 0 <= i < n - 1 :: front[i] == run[i];
    if NoReturn(run) {
      assert NoReturn(front);
      if Last(run).price in Prices(front) {
        var i :| 0 <= i < n - 1 && front[i].price == Last(run).price;
        assert run[i].price == run[n - 1].price;
        assert i < n - 2 ==> run[n - 2].price == run[i].price;
      }
    }
    if NoReturn(front) && (run[n - 2].price == run[n - 1].price || Last(run).price !in Prices(front)) {
      forall i, j, k | 0 <= i < j < k < n && run[i].price == run[k].price ensures run[j].price == run[i].price {
        if k < n - 1 {
          assert front[j].price == front[i].price;
        } else {
          assert front[i].price in Prices(front);
          if j < n - 2 { assert front[i].price == front[n - 2].price && front[j].price == front[i].price; }
        }
      }
    }
  }

  /** The level count is the number of distinct prices if and only if no price is left and returned to. */
  lemma LevelsAreDistinctPricesExactly(run: seq<Trade>)
    requires run != []
    ensures Summary(run).levels == |Prices(run)| <==> NoReturn(run)
    ensures Summary(run).levels >= |Prices(run)|
  {
    LevelsCountReturns(run);
    NoReturnMeansNoRevisit(run);
  }

  /** Every price change happens while `side` leads by volume. */
  predicate LedBy(run: seq<Trade>, side: Aggressor)
    requires run != []
  {
    |run| == 1
    || (LedBy(Front(run), side) && (Last(Front(run)).price != Last(run).price ==> Leader(Front(run)) == side))
  }

  /** What the flag says of an arbitrary run: while one side leads every price change it says exactly that
      the prices are sorted for that side, and for a run that is sorted for a side it says exactly that this
      side led every price change. */
  lemma {:induction false} MonotonicExactly(run: seq<Trade>, side: Aggressor)
    requires run != []
    ensures LedBy(run, side) ==> (Summary(run).monotonic <==> Sorted(run, side))
    ensures Sorted(run, side) ==> (Summary(run).monotonic <==> LedBy(run, side))
    decreases |run|
  {
    hide Leader, Sorted;
    if |run| == 1 {
      ShortIsSorted(run, side);
    } else {
      MonotonicExactly(Front(run), side);
      SortedExtends(run, side);
    }
  }

  lemma ShortIsSorted(run: seq<Trade>, side: Aggressor)
    requires |run| == 1
    ensures Sorted(run, side)
  {
  }

  /** A sorted run returns to no price. */
  lemma SortedHasNoReturn(run: seq<Trade>, side: Aggressor)
    requires Sorted(run, side)
    ensures NoReturn(run)
  {
    forall i, j, k | 0 <= i < j < k < |run| && run[i].price == run[k].price ensures run[j].price == run[i].price {
      assert Directed(side, run[i].price, run[j].price) && Directed(side, run[j].price, run[k].price);
    }
  }

  /** Up one step while buyers lead, and back down while sellers lead. */
  function Reversal(price: nat): seq<Trade> {
    [Trade(0, price, 1, 0, 0, Buy), Trade(1, price + 1, 1, 0, 0, Buy), Trade(2, price + 1, 3, 0, 0, Sell),
     Trade(3, price, 1, 0, 0, Sell)]
  }

  /** Such a run carries the flag although it is sorted for neither side, and counts three levels on two
      prices. */
  lemma ReversalKeepsFlag(price: nat)
    ensures var run, c := Reversal(price), Summary(Reversal(price));
      && c.monotonic && !Sorted(run, Buy) && !Sorted(run, Sell)
      && c.levels == 3 && |Prices(run)| == 2 && !NoReturn(run)
      && c.volume == 6 && c.start == c.end
  {
    hide Progresses, PriceChanges, SideVolume;
    ReversalSums(price);
    ReversalPrices(price);
  }

  lemma ReversalPrices(price: nat)
    ensures var run := Reversal(price);
      && Prices(run) == {price, price + 1} && !NoReturn(run) && !Sorted(run, Buy) && !Sorted(run, Sell)
  {
    var run := Reversal(price);
    assert Prices(run) == {price, price + 1} by {
      assert run[0].price == price && run[1].price == price + 1;
    }
    assert !Directed(Buy, run[2].price, run[3].price) && !Directed(Sell, run[0].price, run[1].price);
    assert run[0].price == run[3].price && run[1].price != run[0].price;
  }

  lemma ReversalSums(price: nat)
    ensures var run := Reversal(price);
      && SideVolume(run, Buy) == 2 && SideVolume(run, Sell) == 4 && PriceChanges(run) == 2 && Progresses(run)
  {
    var run := Reversal(price);
    var a, b, c := run[..1], run[..2], run[..3];
    assert Front(run) == c && Front(c) == b && Front(b) == a && Front(a) == [];
    assert SideVolume(a, Buy) == 1 && SideVolume(a, Sell) == 0;
    assert SideVolume(b, Buy) == 2 && SideVolume(b, Sell) == 0;
    assert SideVolume(c, Buy) == 2 && SideVolume(c, Sell) == 3;
    assert SideVolume(run, Buy) == 2 && SideVolume(run, Sell) == 4;
    assert Progresses(a) && Progresses(b) && Progresses(c) && Progresses(run);
    assert PriceChanges(b) == 1 && PriceChanges(c) == 1 && PriceChanges(run) == 2;
  }

  /** The flag tests each move against the side that led before it: a run that ends with buyers ahead
      at a risen price can still lack it. */
  lemma LeaderMayFlip(price: nat)
    requires price > 0
    ensures var sell := Trade(0, price, 1, 0, 0, Sell);
      var buy := Trade(1, price + 1, 2, 0, 0, Buy);
      var c := Summary([sell, buy]);
      c.dominant == Buy && c.firstPrice < c.lastPrice && !c.monotonic
  {
    var sell, buy := Trade(0, price, 1, 0, 0, Sell), Trade(1, price + 1, 2, 0, 0, Buy);
    var run := [sell, buy];
    assert Front(run) == [sell] && Front([sell]) == [];
    assert SideVolume([sell], Sell) == 1 && SideVolume([sell], Buy) == 0;
    assert SideVolume(run, Buy) == 2 && SideVolume(run, Sell) == 1;
  }
}
