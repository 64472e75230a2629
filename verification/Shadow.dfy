/** The analytics engine's own copy of the book (src/analytics/book.rs). */
module Shadow {
  import opened Options
  import opened OrderBooks
  import opened Ordering
  import opened Sums
  import opened Wire

  /** A change of displayed quantity at one level; zero means that the level is gone. */
  datatype LevelChange = LevelChange(side: BookSide, price: nat, oldQuantity: Option<nat>, newQuantity: nat)

  /** The value of a shadow book. */
  datatype ShadowState = ShadowState(
    bids: Ladder,
    asks: Ladder,
    ready: bool,
    lastUpdateId: Option<nat>,
    crossedCount: nat,
    invalidRejected: nat)

  const EmptyShadow := ShadowState(map[], map[], false, None, 0, 0)

  /** Exact rational `num / den`. */
  datatype Microprice = Microprice(num: nat, den: nat)

  /** Levels with a positive quantity are inserted, the others are counted. */
  function Loaded(m: Ladder, levels: seq<Level>): (Ladder, nat)
    decreases |levels|
  {
    if levels == [] then (m, 0)
    else if levels[0].quantity > 0 then Loaded(m[levels[0].price := levels[0].quantity], levels[1..])
    else
      var (r, rejected) := Loaded(m, levels[1..]);
      (r, rejected + 1)
  }

  function OldQuantity(m: Ladder, price: nat): Option<nat> {
    if price in m then Some(m[price]) else None
  }

  /** One change for every level whose quantity is not what it was when its turn came. */
  function Changes(m: Ladder, levels: seq<Level>, side: BookSide): seq<LevelChange>
    decreases |levels|
  {
    if levels == [] then []
    else
      ChangeAt(m, levels[0], side)
      + Changes(SetLevel(m, levels[0].price, levels[0].quantity), levels[1..], side)
  }

  function ShadowSnapshot(s: ShadowState, bids: seq<Level>, asks: seq<Level>, id: nat): ShadowState {
    var (newBids, badBids) := Loaded(map[], bids);
    var (newAsks, badAsks) := Loaded(map[], asks);
    s.(bids := newBids, asks := newAsks, ready := true, lastUpdateId := Some(id),
    invalidRejected := s.invalidRejected + badBids + badAsks)
  }

  function ShadowUpdate(s: ShadowState, bids: seq<Level>, asks: seq<Level>, id: nat): ShadowState {
    s.(bids := Overlay(s.bids, bids), asks := Overlay(s.asks, asks), lastUpdateId := Some(id))
  }

  function ShadowReady(s: ShadowState, ready: bool): ShadowState {
    if ready then s.(ready := true) else s.(ready := false, bids := map[], asks := map[])
  }

  predicate Crossed(s: ShadowState) {
    s.bids != map[] && s.asks != map[] && GreatestKey(s.bids.Keys).value >= LeastKey(s.asks.Keys).value
  }

  class ShadowBook {
    var bids: Ladder
    var asks: Ladder
    var ready: bool
    var lastUpdateId: Option<nat>
    var crossedCount: nat
    var invalidRejected: nat

    function View(): ShadowState
      reads this
    {
      ShadowState(bids, asks, ready, lastUpdateId, crossedCount, invalidRejected)
    }

    constructor ()
      ensures View() == EmptyShadow
    {
      bids, asks, ready, lastUpdateId, crossedCount, invalidRejected := map[], map[], false, None, 0, 0;
    }

    method ApplySnapshot(newBids: seq<Level>, newAsks: seq<Level>, id: nat)
      modifies this
      ensures View() == ShadowSnapshot(old(View()), newBids, newAsks, id)
    {
      bids, asks := map[], map[];
      var rejected: nat;
      bids, rejected := Load(newBids);
      invalidRejected := invalidRejected + rejected;
      asks, rejected := Load(newAsks);
      invalidRejected := invalidRejected + rejected;
      lastUpdateId := Some(id);
      ready := true;
    }

    method ApplyUpdate(bidChanges: seq<Level>, askChanges: seq<Level>, id: nat) returns (out: seq<LevelChange>)
      modifies this
      ensures View() == ShadowUpdate(old(View()), bidChanges, askChanges, id)
      ensures out == Changes(old(bids), bidChanges, Bid) + Changes(old(asks), askChanges, Ask)
    {
      var bidOut: seq<LevelChange>, askOut: seq<LevelChange>;
      bids, bidOut := Update(bids, bidChanges, Bid);
      asks, askOut := Update(asks, askChanges, Ask);
      out := bidOut + askOut;
      lastUpdateId := Some(id);
    }

    method SetReady(value: bool)
      modifies this
      ensures View() == ShadowReady(old(View()), value)
    {
      ready := value;
      if !value {
        bids, asks := map[], map[];
      }
    }

    function Spread(): Option<nat>
      reads this
    {
      SpreadOf(View())
    }

    function MidPrice(): Option<real>
      reads this
    {
      MidPriceOf(View())
    }

    function Imbalance(depth: nat): Option<real>
      reads this
    {
      ImbalanceOf(View(), depth)
    }

    method RecordCrossed() returns (total: nat)
      modifies this
      ensures View() == old(View()).(crossedCount := old(crossedCount) + 1) && total == crossedCount
    {
      crossedCount := crossedCount + 1;
      total := crossedCount;
    }

    function BestBid(): (r: Option<nat>)
      reads this
      ensures r.None? <==> bids == map[]
      ensures r.Some? ==> r.value in bids && forall p | p in bids :: p <= r.value
    {
      GreatestKey(bids.Keys)
    }

    function BestAsk(): (r: Option<nat>)
      reads this
      ensures r.None? <==> asks == map[]
      ensures r.Some? ==> r.value in asks && forall p | p in asks :: r.value <= p
    {
      LeastKey(asks.Keys)
    }

    predicate IsCrossed()
      reads this
      ensures IsCrossed() <==> exists b, a :: b in bids && a in asks && b >= a
    {
      var bid, ask := BestBid(), BestAsk();
      bid.Some? && ask.Some? && bid.value >= ask.value
    }

    function BookMicroprice(): Option<Microprice>
      reads this
    {
      MicropriceOf(bids, asks, ready)
    }

    /** Displayed quantity in the best `depth` levels of each side. */
    function DepthVolume(depth: nat): (nat, nat)
      reads this
    {
      DepthOf(View(), depth)
    }
  }

  function DepthOf(s: ShadowState, depth: nat): (nat, nat) {
    (TopVolume(Reversed(Listing(s.bids)), depth), TopVolume(Listing(s.asks), depth))
  }

  /** Best prices of a two-sided, uncrossed book. */
  function Inside(s: ShadowState): Option<(nat, nat)> {
    var bid, ask := GreatestKey(s.bids.Keys), LeastKey(s.asks.Keys);
    if Crossed(s) || bid.None? || ask.None? then None else Some((bid.value, ask.value))
  }

  function SpreadOf(s: ShadowState): (r: Option<nat>)
    ensures r.Some? ==> r.value > 0
    ensures r.Some? <==> s.bids != map[] && s.asks != map[] && forall b, a | b in s.bids && a in s.asks :: b < a
  {
    var inside := Inside(s);
    if inside.None? then None else Some(inside.value.1 - inside.value.0)
  }

  /** Half way between the best prices, in the quote currency; 10^8 ticks make one unit. */
  function MidPriceOf(s: ShadowState): Option<real> {
    var inside := Inside(s);
    if inside.None? then None else Some((inside.value.0 + inside.value.1) as real / 2.0 / 100_000_000.0)
  }

  /** Surplus of displayed bids over asks in the best levels, between -1 and 1. */
  function ImbalanceOf(s: ShadowState, depth: nat): (r: Option<real>)
    ensures r.Some? ==> -1.0 <= r.value <= 1.0
  {
    var (bid, ask) := DepthOf(s, depth);
    if !s.ready || Crossed(s) || bid + ask == 0 then None
    else
      RatioInRange(bid, ask);
      Some((bid as int - ask as int) as real / (bid + ask) as real)
  }

  lemma RatioInRange(bid: nat, ask: nat)
    requires bid + ask > 0
    ensures -1.0 <= (bid as int - ask as int) as real / (bid + ask) as real <= 1.0
  {
    SurplusInRange(bid, ask);
    Quotient((bid as int - ask as int) as real, (bid + ask) as real);
  }

  lemma SurplusInRange(bid: nat, ask: nat)
    requires bid + ask > 0
    ensures (bid + ask) as real > 0.0
    ensures -((bid + ask) as real) <= (bid as int - ask as int) as real <= (bid + ask) as real
  {
  }

  lemma Quotient(x: real, total: real)
    requires total > 0.0 && -total <= x <= total
    ensures -1.0 <= x / total <= 1.0
  {
    var r := x / total;
    assert r * total == x;
    Bounded(r, total);
  }

  lemma Bounded(r: real, total: real)
    requires total > 0.0 && -total <= r * total <= total
    ensures -1.0 <= r <= 1.0
  {
    if r > 1.0 { Scaled(1.0, r, total); }
    if r < -1.0 { Scaled(r, -1.0, total); }
  }

  lemma Scaled(a: real, b: real, total: real)
    requires a < b && total > 0.0
    ensures a * total < b * total
  {
  }

  /** Best prices weighted by the opposite side's quantity, as an exact fraction. */
  function MicropriceOf(bids: Ladder, asks: Ladder, ready: bool): Option<Microprice> {
    var bid, ask := GreatestKey(bids.Keys), LeastKey(asks.Keys);
    if !ready || bid.None? || ask.None? || bid.value >= ask.value then None
    else
      var bidQuantity, askQuantity := bids[bid.value], asks[ask.value];
      if bidQuantity + askQuantity == 0 then None
      else Some(Microprice(Weighted(bid.value, ask.value, bidQuantity, askQuantity), bidQuantity + askQuantity))
  }

  function Weighted(bid: nat, ask: nat, bidQuantity: nat, askQuantity: nat): nat {
    ask * bidQuantity + bid * askQuantity
  }

  /** Without zero levels the microprice exists iff the book is ready, two-sided and uncrossed, and
      then it lies strictly between every bid and every ask that is best on its side. */
  lemma MicropriceBetweenBest(bids: Ladder, asks: Ladder, ready: bool)
    requires NoZeros(bids) && NoZeros(asks)
    ensures var r := MicropriceOf(bids, asks, ready);
      && (r.Some? <==> ready && bids != map[] && asks != map[] && forall b, a | b in bids && a in asks :: b < a)
      && (r.Some?
          ==> GreatestKey(bids.Keys).value * r.value.den < r.value.num < LeastKey(asks.Keys).value * r.value.den)
  {
    var bid, ask := GreatestKey(bids.Keys), LeastKey(asks.Keys);
    if bid.Some? && ask.Some? && bid.value < ask.value {
      WeightedBetween(bid.value, ask.value, bids[bid.value], asks[ask.value]);
    }
  }

  lemma WeightedBetween(bid: nat, ask: nat, bidQuantity: nat, askQuantity: nat)
    requires bid < ask && bidQuantity > 0 && askQuantity > 0
    ensures bid * (bidQuantity + askQuantity) < ask * bidQuantity + bid * askQuantity
    ensures ask * bidQuantity + bid * askQuantity < ask * (bidQuantity + askQuantity)
  {
    Weighs(bid, ask, bidQuantity);
    Weighs(bid, ask, askQuantity);
    Distributes(bid, bidQuantity, askQuantity);
    Distributes(ask, bidQuantity, askQuantity);
  }

  lemma Weighs(low: nat, high: nat, quantity: nat)
    requires low < high && quantity > 0
    ensures low * quantity < high * quantity
  {
    assert high * quantity - low * quantity == (high - low) * quantity;
  }

  lemma Distributes(price: nat, a: nat, b: nat)
    ensures price * (a + b) == price * a + price * b
  {
  }

  method Load(levels: seq<Level>) returns (m: Ladder, rejected: nat)
    ensures (m, rejected) == Loaded(map[], levels)
  {
    m, rejected := map[], 0;
    for i := 0 to |levels|
      invariant Loaded(map[], levels).0 == Loaded(m, levels[i..]).0
      invariant Loaded(map[], levels).1 == rejected + Loaded(m, levels[i..]).1
    {
      assert levels[i..][1..] == levels[i + 1..];
      if levels[i].quantity > 0 {
        m := m[levels[i].price := levels[i].quantity];
      } else {
        rejected := rejected + 1;
      }
    }
  }

  method Update(m0: Ladder, levels: seq<Level>, side: BookSide) returns (m: Ladder, out: seq<LevelChange>)
    ensures m == Overlay(m0, levels) && out == Changes(m0, levels, side)
  {
    hide Changes;
    m, out := m0, [];
    assert levels[0..] == levels;
    for i := 0 to |levels|
      invariant Overlay(m, levels[i..]) == Overlay(m0, levels)
      invariant out + Changes(m, levels[i..], side) == Changes(m0, levels, side)
    {
      var rest := levels[i..];
      assert rest[1..] == levels[i + 1..];
      var price, quantity := rest[0].price, rest[0].quantity;
      var previous := OldQuantity(m, price);
      ChangesHead(m, rest, side, out);
      if quantity == 0 {
        m := m - {price};
      } else {
        m := m[price := quantity];
      }
      if previous != Some(quantity) {
        out := out + [LevelChange(side, price, previous, quantity)];
      }
    }
    assert levels[|levels|..] == [];
    NoChanges(m, side);
  }

  lemma NoChanges(m: Ladder, side: BookSide)
    ensures Changes(m, [], side) == []
  {
  }

  function ChangeAt(m: Ladder, level: Level, side: BookSide): seq<LevelChange> {
    var previous := OldQuantity(m, level.price);
    if previous != Some(level.quantity) then [LevelChange(side, level.price, previous, level.quantity)] else []
  }

  lemma ChangesHead(m: Ladder, levels: seq<Level>, side: BookSide, out: seq<LevelChange>)
    requires levels != []
    ensures out + Changes(m, levels, side)
         == (out + ChangeAt(m, levels[0], side))
            + Changes(SetLevel(m, levels[0].price, levels[0].quantity), levels[1..], side)
  {
  }

  function TopVolume(levels: seq<Level>, depth: nat): nat {
    if levels == [] || depth == 0 then 0 else levels[0].quantity + TopVolume(levels[1..], depth - 1)
  }

  ghost function Amounts(m: Ladder): map<nat, int> {
    map p | p in m :: m[p]
  }

  /** All displayed quantity of a side. */
  ghost function Displayed(m: Ladder): int {
    MapSum(Amounts(m))
  }

  lemma DisplayedSet(m: Ladder, price: nat, quantity: nat)
    ensures Displayed(SetLevel(m, price, quantity)) == Displayed(m) - Quantity(m, price) + quantity
  {
    var values := Amounts(m);
    if quantity == 0 {
      assert Amounts(m - {price}) == values - {price};
      if price in m { MapSumSplit(values, price); } else { assert values - {price} == values; }
    } else {
      assert Amounts(m[price := quantity]) == values[price := quantity];
      MapSumSet(values, price, quantity);
    }
  }

  /** Seeding a shadow book with the listing of a ladder, in either order, copies the ladder. */
  lemma LoadingListingCopies(m: Ladder, levels: seq<Level>)
    requires NoZeros(m)
    requires levels == Listing(m) || levels == Reversed(Listing(m))
    ensures Loaded(map[], levels) == (m, 0)
  {
    ListingMentions(m, levels);
    LoadedIsOverlay(map[], levels);
    OverlayOfMentions(m, levels);
  }

  lemma ListingMentions(m: Ladder, levels: seq<Level>)
    requires levels == Listing(m) || levels == Reversed(Listing(m))
    ensures forall i | 0 <= i < |levels| :: levels[i].price in m && levels[i].quantity == m[levels[i].price]
    ensures forall p | p in m :: Level(p, m[p]) in levels
  {
    hide Listing, Reversed;
    var listing := Listing(m);
    forall p | p in m ensures Level(p, m[p]) in levels {
      ListingCovers(m, p);
      var i :| 0 <= i < |listing| && listing[i] == Level(p, m[p]);
      assert levels[i] == listing[i] || levels[|levels| - 1 - i] == listing[i];
    }
  }

  lemma OverlayOfMentions(m: Ladder, levels: seq<Level>)
    requires NoZeros(m)
    requires forall i | 0 <= i < |levels| :: levels[i].price in m && levels[i].quantity == m[levels[i].price]
    requires forall p | p in m :: Level(p, m[p]) in levels
    ensures Overlay(map[], levels) == m
  {
    OverlayKeepsNoZeros(map[], levels);
    forall p ensures Quantity(Overlay(map[], levels), p) == Quantity(m, p) {
      OverlayQuantity(map[], levels, p);
      LastMentionIsMention(levels, p);
      if p in m { assert Level(p, m[p]) in levels; }
    }
    LaddersEqual(Overlay(map[], levels), m);
  }

  lemma {:induction false} LoadedIsOverlay(m: Ladder, levels: seq<Level>)
    requires forall i | 0 <= i < |levels| :: levels[i].quantity > 0
    ensures Loaded(m, levels) == (Overlay(m, levels), 0)
    decreases |levels|
  {
    if levels != [] { LoadedIsOverlay(SetLevel(m, levels[0].price, levels[0].quantity), levels[1..]); }
  }
}
