/** The prices and volumes that a book shows, in terms of its best levels (src/analytics/book.rs). */
module ShadowPrices {
  import opened Options
  import opened OrderBooks
  import opened Ordering
  import opened Shadow
  import opened Sums
  import opened Wire

  ghost predicate IsBestBid(m: Ladder, p: nat) {
    p in m && forall q | q in m :: q <= p
  }

  ghost predicate IsBestAsk(m: Ladder, p: nat) {
    p in m && forall q | q in m :: p <= q
  }

  lemma BestKeys(s: ShadowState, bid: nat, ask: nat)
    requires IsBestBid(s.bids, bid) && IsBestAsk(s.asks, ask)
    ensures GreatestKey(s.bids.Keys) == Some(bid) && LeastKey(s.asks.Keys) == Some(ask)
    ensures Crossed(s) <==> bid >= ask
  {
  }

  /** The microprice of a ready book without zero levels: as far above the best bid as the bids outweigh the
      asks, so that it is nearer to the ask if and only if more is bid than asked. */
  lemma MicropriceValue(bids: Ladder, asks: Ladder, bid: nat, ask: nat)
    requires NoZeros(bids) && NoZeros(asks) && IsBestBid(bids, bid) && IsBestAsk(asks, ask) && bid < ask
    ensures var r := MicropriceOf(bids, asks, true);
      && r.Some? && r.value.den == bids[bid] + asks[ask]
      && r.value.num - bid * r.value.den == (ask - bid) * bids[bid]
      && ask * r.value.den - r.value.num == (ask - bid) * asks[ask]
      && (2 * r.value.num > (bid + ask) * r.value.den <==> bids[bid] > asks[ask])
  {
    BestKeys(ShadowState(bids, asks, true, None, 0, 0), bid, ask);
    WeighedFromBid(bid, ask, bids[bid], asks[ask]);
  }

  lemma WeighedFromBid(bid: nat, ask: nat, b: nat, a: nat)
    requires bid < ask
    ensures var num, den := Weighted(bid, ask, b, a), b + a;
      && num - bid * den == (ask - bid) * b && ask * den - num == (ask - bid) * a
      && (2 * num > (bid + ask) * den <==> b > a)
  {
    var num, den, d := Weighted(bid, ask, b, a), b + a, ask - bid;
    Spread3(bid, d, b, a);
    assert ask == bid + d;
    assert 2 * num - (bid + ask) * den == d * b - d * a;
    if b > a { Steeper(d, a, b); } else { Steeper(d, b, a); }
  }

  /** `(bid + d) * b + bid * a`, multiplied out. */
  lemma Spread3(bid: nat, d: nat, b: nat, a: nat)
    ensures (bid + d) * b == bid * b + d * b && (bid + d) * a == bid * a + d * a
    ensures bid * (b + a) == bid * b + bid * a
    ensures (bid + d) * (b + a) == bid * b + bid * a + d * b + d * a
    ensures (bid + (bid + d)) * (b + a) == 2 * (bid * b) + 2 * (bid * a) + d * b + d * a
  {
  }

  lemma Steeper(d: nat, a: nat, b: nat)
    requires d > 0 && a <= b
    ensures d * a <= d * b && (a < b ==> d * a < d * b)
  {
    assert d * b == d * a + d * (b - a);
  }

  /** Without a best price on both sides there is no spread and no price in the middle. */
  lemma NoInsidePrices(s: ShadowState)
    requires s.bids == map[] || s.asks == map[]
    ensures SpreadOf(s) == None && MidPriceOf(s) == None && MicropriceOf(s.bids, s.asks, s.ready) == None
  {
  }

  /** Of a two-sided book: spread and middle are those of the best prices unless they cross. */
  lemma InsideValues(s: ShadowState, bid: nat, ask: nat)
    requires IsBestBid(s.bids, bid) && IsBestAsk(s.asks, ask)
    ensures SpreadOf(s) == if bid < ask then Some(ask - bid) else None
    ensures MidPriceOf(s).Some? <==> bid < ask
    ensures bid < ask ==> MidPriceOf(s).value * 200_000_000.0 == (bid + ask) as real
  {
    BestKeys(s, bid, ask);
  }

  predicate Better(side: BookSide, p: nat, q: nat) {
    if side == Bid then p > q else p < q
  }

  /** The best `depth` prices of a side, or all of them if there are fewer. */
  ghost predicate BestPrices(m: Ladder, side: BookSide, depth: nat, best: set<nat>) {
    && best <= m.Keys
    && |best| == (if |m| < depth then |m| else depth)
    && forall p, q | p in best && q in m.Keys - best :: Better(side, p, q)
  }

  ghost function QuantityOver(m: Ladder, prices: set<nat>): int
    requires prices <= m.Keys
  {
    MapSum(AmountsOf(m, prices))
  }

  function AmountsOf(m: Ladder, prices: set<nat>): map<nat, int>
    requires prices <= m.Keys
  {
    map p | p in prices :: m[p]
  }

  /** Levels of a ladder, best first. */
  ghost predicate BestFirst(m: Ladder, side: BookSide, levels: seq<Level>) {
    && |levels| == |m|
    && (forall i | 0 <= i < |levels| :: levels[i].price in m && levels[i].quantity == m[levels[i].price])
    && (forall i, j | 0 <= i < j < |levels| :: Better(side, levels[i].price, levels[j].price))
  }

  function PricesIn(levels: seq<Level>): set<nat> {
    set i | 0 <= i < |levels| :: levels[i].price
  }

  lemma {:induction false} PricesCount(m: Ladder, side: BookSide, levels: seq<Level>)
    requires forall i, j | 0 <= i < j < |levels| :: Better(side, levels[i].price, levels[j].price)
    ensures |PricesIn(levels)| == |levels|
    decreases |levels|
  {
    if levels != [] {
      var front, last := levels[..|levels| - 1], levels[|levels| - 1];
      PricesCount(m, side, front);
      assert PricesIn(levels) == PricesIn(front) + {last.price};
      assert last.price !in PricesIn(front);
    }
  }

  /** The first levels have the best prices. */
  lemma FirstAreBest(m: Ladder, side: BookSide, levels: seq<Level>, depth: nat)
    requires BestFirst(m, side, levels)
    ensures var n := if |m| < depth then |m| else depth; BestPrices(m, side, depth, PricesIn(levels[..n]))
  {
    var n := if |m| < depth then |m| else depth;
    var first, all := PricesIn(levels[..n]), PricesIn(levels);
    PricesCount(m, side, levels[..n]);
    PricesCount(m, side, levels);
    SubsetFull(all, m.Keys);
    forall k | 0 <= k < n ensures levels[k].price in first {
      assert levels[..n][k] == levels[k];
    }
    forall p, q | p in first && q in m.Keys - first ensures Better(side, p, q) {
      var i :| 0 <= i < n && levels[i].price == p;
      var j :| 0 <= j < |levels| && levels[j].price == q;
    }
  }

  lemma SubsetFull(a: set<nat>, b: set<nat>)
    requires a <= b && |a| == |b|
    ensures a == b
  {
    forall x | x in b ensures x in a {
      SubsetSize(a - {x}, b - {x});
    }
  }

  lemma {:induction false} SubsetSize(a: set<nat>, b: set<nat>)
    requires a <= b
    ensures |a| <= |b|
    decreases a
  {
    if x :| x in a { SubsetSize(a - {x}, b - {x}); }
  }

  /** There is only one set of best prices. */
  lemma BestUnique(m: Ladder, side: BookSide, depth: nat, a: set<nat>, b: set<nat>)
    requires BestPrices(m, side, depth, a) && BestPrices(m, side, depth, b)
    ensures a == b
  {
    BestNested(m, side, depth, a, b);
    if a <= b { SubsetFull(a, b); } else { SubsetFull(b, a); }
  }

  lemma BestNested(m: Ladder, side: BookSide, depth: nat, a: set<nat>, b: set<nat>)
    requires BestPrices(m, side, depth, a) && BestPrices(m, side, depth, b)
    ensures a <= b || b <= a
  {
    if p :| p in a && p !in b {
      forall q | q in b ensures q in a {
        assert Better(side, q, p);
        assert q !in a ==> Better(side, p, q);
      }
    }
  }

  lemma {:induction false} TopIsSum(m: Ladder, side: BookSide, levels: seq<Level>, n: nat)
    requires BestFirst(m, side, levels) && n <= |levels|
    ensures PricesIn(levels[..n]) <= m.Keys
    ensures TopVolume(levels[..n], n) == QuantityOver(m, PricesIn(levels[..n]))
  {
    if n > 0 {
      var front, p := PricesIn(levels[..n - 1]), levels[n - 1].price;
      TopIsSum(m, side, levels, n - 1);
      TopVolumeGrows(levels, n);
      assert PricesIn(levels[..n]) == front + {p};
      assert p !in front;
      QuantityGrows(m, front, p);
    } else {
      assert PricesIn(levels[..0]) == {};
      NothingOver(m);
    }
  }

  lemma QuantityGrows(m: Ladder, prices: set<nat>, p: nat)
    requires prices <= m.Keys && p in m && p !in prices
    ensures QuantityOver(m, prices + {p}) == QuantityOver(m, prices) + m[p]
  {
    assert AmountsOf(m, prices + {p}) == AmountsOf(m, prices)[p := m[p]];
    MapSumSet(AmountsOf(m, prices), p, m[p]);
  }

  lemma NothingOver(m: Ladder)
    ensures QuantityOver(m, {}) == 0
  {
    assert AmountsOf(m, {}) == map[];
  }

  lemma {:induction false} TopVolumeGrows(levels: seq<Level>, n: nat)
    requires 0 < n <= |levels|
    ensures TopVolume(levels[..n], n) == TopVolume(levels[..n - 1], n - 1) + levels[n - 1].quantity
    decreases n
  {
    if n > 1 {
      assert levels[1..][..n - 1] == levels[..n][1..] && levels[1..][..n - 2] == levels[..n - 1][1..];
      TopVolumeGrows(levels[1..], n - 1);
    }
  }

  lemma {:induction false} TopStops(levels: seq<Level>, depth: nat)
    ensures var n := if |levels| < depth then |levels| else depth;
      TopVolume(levels, depth) == TopVolume(levels[..n], n)
    decreases |levels|
  {
    if levels != [] && depth > 0 {
      var n := if |levels| < depth then |levels| else depth;
      assert levels[..n][1..] == levels[1..][..n - 1];
      TopStops(levels[1..], depth - 1);
    }
  }

  lemma SideDepth(m: Ladder, side: BookSide, levels: seq<Level>, depth: nat, best: set<nat>)
    requires BestFirst(m, side, levels) && BestPrices(m, side, depth, best)
    ensures TopVolume(levels, depth) == QuantityOver(m, best)
  {
    var n := if |m| < depth then |m| else depth;
    FirstAreBest(m, side, levels, depth);
    BestUnique(m, side, depth, best, PricesIn(levels[..n]));
    TopStops(levels, depth);
    TopIsSum(m, side, levels, n);
  }

  /** The depth of each side is what rests at its best prices. */
  lemma DepthIsBestVolume(s: ShadowState, depth: nat, bestBids: set<nat>, bestAsks: set<nat>)
    requires BestPrices(s.bids, Bid, depth, bestBids) && BestPrices(s.asks, Ask, depth, bestAsks)
    ensures DepthOf(s, depth) == (QuantityOver(s.bids, bestBids), QuantityOver(s.asks, bestAsks))
  {
    hide BestFirst, BestPrices, QuantityOver;
    ListedBestFirst(s.bids);
    ListedBestFirst(s.asks);
    SideDepth(s.bids, Bid, Reversed(Listing(s.bids)), depth, bestBids);
    SideDepth(s.asks, Ask, Listing(s.asks), depth, bestAsks);
  }

  lemma ListedBestFirst(m: Ladder)
    ensures BestFirst(m, Ask, Listing(m)) && BestFirst(m, Bid, Reversed(Listing(m)))
  {
    hide Listing, Reversed;
  }

  /** The imbalance is the surplus of the best bids, as a part of both, positive if and only if more is bid than
      asked; there is none unless the book is ready and uncrossed and shows anything. */
  lemma ImbalanceValue(s: ShadowState, depth: nat, bestBids: set<nat>, bestAsks: set<nat>)
    requires BestPrices(s.bids, Bid, depth, bestBids) && BestPrices(s.asks, Ask, depth, bestAsks)
    ensures IsSurplus(ImbalanceOf(s, depth), s.ready && !Crossed(s), QuantityOver(s.bids, bestBids),
                      QuantityOver(s.asks, bestAsks))
  {
    DepthIsBestVolume(s, depth, bestBids, bestAsks);
    hide QuantityOver, BestPrices, ImbalanceOf, IsSurplus;
    ImbalanceOfDepth(s, depth);
  }

  ghost predicate IsSurplus(r: Option<real>, shown: bool, b: int, a: int) {
    && (r.Some? <==> shown && b + a > 0)
    && (r.Some? ==> r.value * (b + a) as real == (b - a) as real)
  }

  lemma ImbalanceOfDepth(s: ShadowState, depth: nat)
    ensures IsSurplus(ImbalanceOf(s, depth), s.ready && !Crossed(s), DepthOf(s, depth).0, DepthOf(s, depth).1)
  {
    hide DepthOf, Crossed;
    var (b, a) := DepthOf(s, depth);
    if b + a > 0 { QuotientBack((b as int - a as int) as real, (b + a) as real); }
  }

  /** A book is crossed if and only if some bid is at or above some ask. */
  lemma CrossedExactly(s: ShadowState)
    ensures Crossed(s) <==> exists p, q :: p in s.bids && q in s.asks && p >= q
  {
  }

  lemma QuotientBack(x: real, total: real)
    requires total > 0.0
    ensures x / total * total == x
  {
  }
}
