/** The local order book (src/orderbook/book.rs). */
module OrderBooks {
  import opened Options
  import opened Ordering
  import opened Wire

  /** One side of a book: price tick to quantity tick. */
  type Ladder = map<nat, nat>

  /** Displayed quantity; a level that does not exist displays nothing. */
  function Quantity(m: Ladder, price: nat): nat {
    if price in m then m[price] else 0
  }

  ghost predicate NoZeros(m: Ladder) {
    forall p | p in m :: m[p] > 0
  }

  /** Ladders without zero levels are determined by the quantities they display. */
  lemma LaddersEqual(a: Ladder, b: Ladder)
    requires NoZeros(a) && NoZeros(b)
    requires forall p :: Quantity(a, p) == Quantity(b, p)
    ensures a == b
  {
    forall p ensures p in a <==> p in b {
      assert Quantity(a, p) == Quantity(b, p);
    }
    forall p | p in a ensures a[p] == b[p] {
      assert Quantity(a, p) == Quantity(b, p);
    }
  }

  /** Absolute-quantity overwrite of one level; zero removes it. */
  function SetLevel(m: Ladder, price: nat, quantity: nat): Ladder {
    if quantity == 0 then m - {price} else m[price := quantity]
  }

  /** Levels overwritten one after the other. */
  function Overlay(m: Ladder, levels: seq<Level>): Ladder
    decreases |levels|
  {
    if levels == [] then m
    else Overlay(SetLevel(m, levels[0].price, levels[0].quantity), levels[1..])
  }

  /** The quantity that the last mention of `price` gives it. */
  function LastMention(levels: seq<Level>, price: nat): Option<nat> {
    if levels == [] then None
    else
      var later := LastMention(levels[1..], price);
      if later.Some? then later
      else if levels[0].price == price then Some(levels[0].quantity)
      else None
  }

  /** Overwriting shows, at every price, the last mention, or what was there before. */
  lemma {:induction false} OverlayQuantity(m: Ladder, levels: seq<Level>, price: nat)
    ensures Quantity(Overlay(m, levels), price)
         == match LastMention(levels, price) case Some(q) => q case None => Quantity(m, price)
    decreases |levels|
  {
    if levels != [] {
      OverlayQuantity(SetLevel(m, levels[0].price, levels[0].quantity), levels[1..], price);
    }
  }

  lemma {:induction false} OverlayKeepsNoZeros(m: Ladder, levels: seq<Level>)
    requires NoZeros(m)
    ensures NoZeros(Overlay(m, levels))
    decreases |levels|
  {
    if levels != [] {
      OverlayKeepsNoZeros(SetLevel(m, levels[0].price, levels[0].quantity), levels[1..]);
    }
  }

  lemma {:induction false} LastMentionIsMention(levels: seq<Level>, price: nat)
    ensures LastMention(levels, price).Some? <==> exists i :: 0 <= i < |levels| && levels[i].price == price
    ensures LastMention(levels, price).Some?
        ==> exists i :: 0 <= i < |levels| && levels[i] == Level(price, LastMention(levels, price).value)
  {
    if levels != [] {
      var rest := levels[1..];
      LastMentionIsMention(rest, price);
      assert forall i | 0 <= i < |rest| :: rest[i] == levels[i + 1];
      assert forall i | 1 <= i < |levels| :: levels[i] == rest[i - 1];
    }
  }

  ghost predicate DistinctPrices(levels: seq<Level>) {
    forall i, j | 0 <= i < j < |levels| :: levels[i].price != levels[j].price
  }

  /** Levels with distinct prices may be stored in any order, and repeated, without changing their
      effect. */
  lemma OverlayOrderIrrelevant(m: Ladder, a: seq<Level>, b: seq<Level>)
    requires NoZeros(m)
    requires DistinctPrices(a) && forall x :: x in a <==> x in b
    ensures Overlay(m, a) == Overlay(m, b)
  {
    OverlayKeepsNoZeros(m, a);
    OverlayKeepsNoZeros(m, b);
    forall p ensures Quantity(Overlay(m, a), p) == Quantity(Overlay(m, b), p) {
      OverlayQuantity(m, a, p);
      OverlayQuantity(m, b, p);
      LastMentionIsMention(a, p);
      LastMentionIsMention(b, p);
      assert forall i | 0 <= i < |a| :: a[i] in b;
      assert forall i | 0 <= i < |b| :: b[i] in a;
    }
    LaddersEqual(Overlay(m, a), Overlay(m, b));
  }

  /** The pairs of an update applied in order, up to the first one that does not parse. */
  function ApplyQuotes(m: Ladder, quotes: seq<Quote>): (Ladder, bool)
    decreases |quotes|
  {
    if quotes == [] then (m, true)
    else if !WellFormedQuote(quotes[0]) then (m, false)
    else
      var level := LevelOf(quotes[0]);
      ApplyQuotes(SetLevel(m, level.price, level.quantity), quotes[1..])
  }

  /** The pairs of a snapshot: zero quantities are skipped. */
  function LoadQuotes(m: Ladder, quotes: seq<Quote>): (Ladder, bool)
    decreases |quotes|
  {
    if quotes == [] then (m, true)
    else if !WellFormedQuote(quotes[0]) then (m, false)
    else
      var level := LevelOf(quotes[0]);
      LoadQuotes(if level.quantity > 0 then m[level.price := level.quantity] else m, quotes[1..])
  }

  lemma {:induction false} ApplyQuotesIsOverlay(m: Ladder, quotes: seq<Quote>)
    requires WellFormed(quotes)
    ensures ApplyQuotes(m, quotes) == (Overlay(m, LevelsOf(quotes)), true)
    decreases |quotes|
  {
    if quotes != [] {
      var level := LevelOf(quotes[0]);
      assert LevelsOf(quotes)[1..] == LevelsOf(quotes[1..]);
      ApplyQuotesIsOverlay(SetLevel(m, level.price, level.quantity), quotes[1..]);
    }
  }

  /** The value of an order book. */
  datatype Book = Book(bids: Ladder, asks: Ladder, lastUpdateId: nat, initialized: bool)

  const EmptyBook := Book(map[], map[], 0, false)

  /** A snapshot replaces the levels; one that does not parse leaves the id and the flag alone. */
  function SnapshotApplied(b: Book, bids: seq<Quote>, asks: seq<Quote>, id: nat): (Book, bool) {
    var (newBids, bidsOk) := LoadQuotes(map[], bids);
    if !bidsOk then (b.(bids := newBids, asks := map[]), false)
    else
      var (newAsks, asksOk) := LoadQuotes(map[], asks);
      if !asksOk then (b.(bids := newBids, asks := newAsks), false)
      else (Book(newBids, newAsks, id, true), true)
  }

  /** A depth update overwrites the levels it names; it needs an initialized book. */
  function UpdateApplied(b: Book, bids: seq<Quote>, asks: seq<Quote>, id: nat): (Book, bool) {
    if !b.initialized then (b, false)
    else
      var (newBids, bidsOk) := ApplyQuotes(b.bids, bids);
      if !bidsOk then (b.(bids := newBids), false)
      else
        var (newAsks, asksOk) := ApplyQuotes(b.asks, asks);
        if !asksOk then (b.(bids := newBids, asks := newAsks), false)
        else (Book(newBids, newAsks, id, true), true)
  }

  /** Neither operation ever stores a zero quantity, whatever the input. */
  lemma BookKeepsNoZeros(b: Book, bids: seq<Quote>, asks: seq<Quote>, id: nat)
    requires NoZeros(b.bids) && NoZeros(b.asks)
    ensures var r := SnapshotApplied(b, bids, asks, id).0; NoZeros(r.bids) && NoZeros(r.asks)
    ensures var r := UpdateApplied(b, bids, asks, id).0; NoZeros(r.bids) && NoZeros(r.asks)
  {
    QuotesKeepNoZeros(map[], bids);
    QuotesKeepNoZeros(map[], asks);
    QuotesKeepNoZeros(b.bids, bids);
    QuotesKeepNoZeros(b.asks, asks);
  }

  lemma {:induction false} QuotesKeepNoZeros(m: Ladder, quotes: seq<Quote>)
    requires NoZeros(m)
    ensures NoZeros(LoadQuotes(m, quotes).0) && NoZeros(ApplyQuotes(m, quotes).0)
    decreases |quotes|
  {
    if quotes != [] && WellFormedQuote(quotes[0]) {
      var level := LevelOf(quotes[0]);
      QuotesKeepNoZeros(SetLevel(m, level.price, level.quantity), quotes[1..]);
      QuotesKeepNoZeros(if level.quantity > 0 then m[level.price := level.quantity] else m, quotes[1..]);
    }
  }

  /** The levels of a ladder in ascending price order. */
  function Listing(m: Ladder): (r: seq<Level>)
    ensures |r| == |m|
    ensures forall i | 0 <= i < |r| :: r[i].price in m && r[i].quantity == m[r[i].price]
    ensures forall i, j | 0 <= i < j < |r| :: r[i].price < r[j].price
  {
    var keys := Ascending(m.Keys);
    seq(|keys|, i requires 0 <= i < |keys| => assert keys[i] in keys; Level(keys[i], m[keys[i]]))
  }

  lemma ListingCovers(m: Ladder, price: nat)
    requires price in m
    ensures Level(price, m[price]) in Listing(m)
  {
    var keys := Ascending(m.Keys);
    assert price in keys;
    var i :| 0 <= i < |keys| && keys[i] == price;
    assert Listing(m)[i] == Level(price, m[price]);
  }

  /** An immutable copy of the book: bids from highest to lowest, asks from lowest to highest. */
  datatype BookSnapshot = BookSnapshot(bids: seq<Level>, asks: seq<Level>, lastUpdateId: nat)

  function Reversed(s: seq<Level>): (r: seq<Level>)
    ensures |r| == |s|
    ensures forall i | 0 <= i < |s| :: r[i] == s[|s| - 1 - i]
  {
    seq(|s|, i requires 0 <= i < |s| => s[|s| - 1 - i])
  }

  /** One pass over the levels of a side. */
  method HasNoZeros(m: Ladder) returns (ok: bool)
    ensures ok <==> NoZeros(m)
  {
    var prices := Ascending(m.Keys);
    for i := 0 to |prices|
      invariant forall j | 0 <= j < i :: prices[j] in m && m[prices[j]] > 0
    {
      assert prices[i] in prices;
      if m[prices[i]] == 0 { return false; }
    }
    forall p | p in m ensures m[p] > 0 {
      assert p in prices;
    }
    ok := true;
  }

  class OrderBook {
    var bids: Ladder
    var asks: Ladder
    var lastUpdateId: nat
    var initialized: bool

    ghost function View(): Book
      reads this
    {
      Book(bids, asks, lastUpdateId, initialized)
    }

    constructor ()
      ensures View() == EmptyBook
    {
      bids, asks, lastUpdateId, initialized := map[], map[], 0, false;
    }

    method Clear()
      modifies this
      ensures View() == EmptyBook
    {
      bids, asks, lastUpdateId, initialized := map[], map[], 0, false;
    }

    method ApplySnapshot(newBids: seq<Quote>, newAsks: seq<Quote>, id: nat) returns (ok: bool)
      modifies this
      ensures (View(), ok) == SnapshotApplied(old(View()), newBids, newAsks, id)
    {
      bids, asks := map[], map[];
      for i := 0 to |newBids|
        invariant asks == map[] && lastUpdateId == old(lastUpdateId) && initialized == old(initialized)
        invariant LoadQuotes(bids, newBids[i..]) == LoadQuotes(map[], newBids)
      {
        assert newBids[i..][1..] == newBids[i + 1..];
        if !WellFormedQuote(newBids[i]) { return false; }
        var level := LevelOf(newBids[i]);
        if level.quantity > 0 { bids := bids[level.price := level.quantity]; }
      }
      for i := 0 to |newAsks|
        invariant (bids, true) == LoadQuotes(map[], newBids)
        invariant lastUpdateId == old(lastUpdateId) && initialized == old(initialized)
        invariant LoadQuotes(asks, newAsks[i..]) == LoadQuotes(map[], newAsks)
      {
        assert newAsks[i..][1..] == newAsks[i + 1..];
        if !WellFormedQuote(newAsks[i]) { return false; }
        var level := LevelOf(newAsks[i]);
        if level.quantity > 0 { asks := asks[level.price := level.quantity]; }
      }
      lastUpdateId, initialized := id, true;
      ok := true;
    }

    method ApplyDepthUpdate(newBids: seq<Quote>, newAsks: seq<Quote>, id: nat) returns (ok: bool)
      modifies this
      ensures (View(), ok) == UpdateApplied(old(View()), newBids, newAsks, id)
    {
      if !initialized { return false; }
      for i := 0 to |newBids|
        invariant asks == old(asks) && lastUpdateId == old(lastUpdateId) && initialized
        invariant ApplyQuotes(bids, newBids[i..]) == ApplyQuotes(old(bids), newBids)
      {
        assert newBids[i..][1..] == newBids[i + 1..];
        if !WellFormedQuote(newBids[i]) { return false; }
        var level := LevelOf(newBids[i]);
        if level.quantity == 0 {
          bids := bids - {level.price};
        } else {
          bids := bids[level.price := level.quantity];
        }
      }
      for i := 0 to |newAsks|
        invariant (bids, true) == ApplyQuotes(old(bids), newBids)
        invariant lastUpdateId == old(lastUpdateId) && initialized
        invariant ApplyQuotes(asks, newAsks[i..]) == ApplyQuotes(old(asks), newAsks)
      {
        assert newAsks[i..][1..] == newAsks[i + 1..];
        if !WellFormedQuote(newAsks[i]) { return false; }
        var level := LevelOf(newAsks[i]);
        if level.quantity == 0 {
          asks := asks - {level.price};
        } else {
          asks := asks[level.price := level.quantity];
        }
      }
      lastUpdateId := id;
      ok := true;
    }

    method SetInitialized(value: bool)
      modifies this
      ensures View() == old(View()).(initialized := value)
    {
      initialized := value;
    }

    function BestBid(): (r: Option<nat>)
      reads this
      ensures r.None? <==> bids == map[]
      ensures r.Some? ==> r.value in bids && forall p | p in bids :: p <= r.value
    {
      GreatestKey(bids.Keys)
    }

    function BestAsk(): (r: Option<nat>)
      reads this
      ensures r.None? <==> asks == map[]
      ensures r.Some? ==> r.value in asks && forall p | p in asks :: r.value <= p
    {
      LeastKey(asks.Keys)
    }

    /** Every level once, best price first on both sides. */
    function Snapshot(): (r: BookSnapshot)
      reads this
      ensures r.lastUpdateId == lastUpdateId
      ensures |r.bids| == |bids| && |r.asks| == |asks|
      ensures forall i, j | 0 <= i < j < |r.bids| :: r.bids[i].price > r.bids[j].price
      ensures forall i, j | 0 <= i < j < |r.asks| :: r.asks[i].price < r.asks[j].price
      ensures forall i | 0 <= i < |r.bids| :: r.bids[i].price in bids && r.bids[i].quantity == bids[r.bids[i].price]
      ensures forall i | 0 <= i < |r.asks| :: r.asks[i].price in asks && r.asks[i].quantity == asks[r.asks[i].price]
    {
      BookSnapshot(Reversed(Listing(bids)), Listing(asks), lastUpdateId)
    }

    /** The self-check accepts exactly the books without zero levels that are not crossed. */
    method VerifyInvariants() returns (ok: bool)
      ensures ok <==> NoZeros(bids) && NoZeros(asks) && forall b, a | b in bids && a in asks :: b < a
    {
      ok := HasNoZeros(bids);
      if !ok { return false; }
      ok := HasNoZeros(asks);
      if !ok { return false; }
      var bid, ask := BestBid(), BestAsk();
      if bid.Some? && ask.Some? && bid.value >= ask.value { return false; }
      ok := true;
    }
  }
}
