/** The exchange behind the depth stream: a history of single-level changes. Change number `i`
    (counted from 1) has update id `i`. Only proofs refer to this module. */
module Exchange {
  import opened OrderBooks
  import opened Wire

  datatype Change = Change(side: BookSide, price: nat, quantity: nat)

  type History = seq<Change>

  /** The exchange's own ladder after the first `n` changes. */
  ghost function LadderAt(h: History, n: nat, side: BookSide): (m: Ladder)
    requires n <= |h|
    ensures NoZeros(m)
  {
    if n == 0 then map[]
    else
      var m := LadderAt(h, n - 1, side);
      var c := h[n - 1];
      if c.side == side then SetLevel(m, c.price, c.quantity) else m
  }

  /** Some change with an id in `(from, to]` sets this level. */
  ghost predicate Touched(h: History, from: nat, to: nat, side: BookSide, price: nat)
    requires to <= |h|
  {
    exists i :: from <= i < to && h[i].side == side && h[i].price == price
  }

  /** A level that no change in between sets displays the same quantity before and after. */
  lemma {:induction false} UntouchedStays(h: History, lo: nat, hi: nat, side: BookSide, price: nat)
    requires lo <= hi <= |h|
    requires !Touched(h, lo, hi, side, price)
    ensures Quantity(LadderAt(h, lo, side), price) == Quantity(LadderAt(h, hi, side), price)
    decreases hi
  {
    if lo < hi {
      assert !(h[hi - 1].side == side && h[hi - 1].price == price);
      UntouchedStays(h, lo, hi - 1, side, price);
    }
  }

  /** Every pair states the quantity displayed at `at`, and every level in `(from, to]` that was
      touched is mentioned. A level may be mentioned more than once, or without being touched. */
  ghost predicate StatesLadder(h: History, quotes: seq<Quote>, from: nat, at: nat, side: BookSide)
    requires at <= |h|
  {
    && WellFormed(quotes)
    && (forall i | 0 <= i < |quotes| ::
          LevelOf(quotes[i]).quantity == Quantity(LadderAt(h, at, side), LevelOf(quotes[i]).price))
    && (forall p | Touched(h, from, at, side, p) :: exists i :: 0 <= i < |quotes| && LevelOf(quotes[i]).price == p)
  }

  /** The event reports the changes with ids in `(pu, u]`, as absolute quantities at `u`. */
  ghost predicate Faithful(h: History, e: DepthUpdate) {
    && e.previousFinalId < e.firstId <= e.finalId <= |h|
    && StatesLadder(h, e.bids, e.previousFinalId, e.finalId, Bid)
    && StatesLadder(h, e.asks, e.previousFinalId, e.finalId, Ask)
  }

  /** A full-depth snapshot taken at update id `id`. */
  ghost predicate FaithfulSnapshot(h: History, bids: seq<Quote>, asks: seq<Quote>, id: nat) {
    && id <= |h|
    && StatesLadder(h, bids, 0, id, Bid)
    && StatesLadder(h, asks, 0, id, Ask)
  }

  /** The book is the exchange's book at `n`. */
  ghost predicate BookIs(h: History, b: Book, n: nat) {
    && n <= |h|
    && b.initialized
    && b.lastUpdateId == n
    && b.bids == LadderAt(h, n, Bid)
    && b.asks == LadderAt(h, n, Ask)
  }

  /** Overlap is enough: an event that starts no later, and ends no earlier, than the ladder it
      is applied to brings the ladder to its own end. */
  lemma OverlapAdvances(h: History, quotes: seq<Quote>, from: nat, x: nat, to: nat, side: BookSide)
    requires from <= x <= to <= |h|
    requires StatesLadder(h, quotes, from, to, side)
    ensures Overlay(LadderAt(h, x, side), LevelsOf(quotes)) == LadderAt(h, to, side)
  {
    var m, levels := LadderAt(h, x, side), LevelsOf(quotes);
    var target := LadderAt(h, to, side);
    OverlayKeepsNoZeros(m, levels);
    forall p ensures Quantity(Overlay(m, levels), p) == Quantity(target, p) {
      OverlayQuantity(m, levels, p);
      LastMentionIsMention(levels, p);
      if LastMention(levels, p).None? {
        assert forall i | 0 <= i < |quotes| :: levels[i].price != p;
        assert !Touched(h, from, to, side, p);
        UntouchedStays(h, x, to, side, p);
      } else {
        var i :| 0 <= i < |levels| && levels[i] == Level(p, LastMention(levels, p).value);
        assert LevelOf(quotes[i]) == levels[i];
      }
    }
    LaddersEqual(Overlay(m, levels), target);
  }

  /** Applying an overlapping event to the book at `x` gives the book at the end of the event. */
  lemma EventAdvances(h: History, b: Book, x: nat, e: DepthUpdate)
    requires BookIs(h, b, x)
    requires Faithful(h, e) && e.previousFinalId <= x <= e.finalId
    ensures UpdateApplied(b, e.bids, e.asks, e.finalId).1
    ensures BookIs(h, UpdateApplied(b, e.bids, e.asks, e.finalId).0, e.finalId)
  {
    OverlapAdvances(h, e.bids, e.previousFinalId, x, e.finalId, Bid);
    OverlapAdvances(h, e.asks, e.previousFinalId, x, e.finalId, Ask);
    ApplyQuotesIsOverlay(b.bids, e.bids);
    ApplyQuotesIsOverlay(b.asks, e.asks);
  }

  /** Loading a faithful snapshot gives the exchange's book at the snapshot id. */
  lemma SnapshotLoads(h: History, b: Book, bids: seq<Quote>, asks: seq<Quote>, id: nat)
    requires FaithfulSnapshot(h, bids, asks, id)
    ensures SnapshotApplied(b, bids, asks, id).1
    ensures BookIs(h, SnapshotApplied(b, bids, asks, id).0, id)
  {
    LoadedLadder(h, bids, id, Bid);
    LoadedLadder(h, asks, id, Ask);
  }

  lemma LoadedLadder(h: History, quotes: seq<Quote>, id: nat, side: BookSide)
    requires id <= |h| && StatesLadder(h, quotes, 0, id, side)
    ensures LoadQuotes(map[], quotes) == (LadderAt(h, id, side), true)
  {
    var target := LadderAt(h, id, side);
    LoadAgreed(map[], quotes, target);
    var m := LoadQuotes(map[], quotes).0;
    forall p | p in target ensures p in m {
      if !Touched(h, 0, id, side, p) {
        UntouchedStays(h, 0, id, side, p);
        assert false;
      }
      var i :| 0 <= i < |quotes| && LevelOf(quotes[i]).price == p;
      assert LevelOf(quotes[i]).quantity == Quantity(target, p);
    }
    assert m == target;
  }

  /** Pairs that all agree with `target` load exactly the mentioned levels of `target`. */
  lemma {:induction false} LoadAgreed(m: Ladder, quotes: seq<Quote>, target: Ladder)
    requires NoZeros(target)
    requires WellFormed(quotes)
    requires forall i | 0 <= i < |quotes| :: LevelOf(quotes[i]).quantity == Quantity(target, LevelOf(quotes[i]).price)
    requires forall p | p in m :: p in target && m[p] == target[p]
    ensures LoadQuotes(m, quotes).1
    ensures forall p | p in LoadQuotes(m, quotes).0 :: p in target && LoadQuotes(m, quotes).0[p] == target[p]
    ensures forall p | p in m :: p in LoadQuotes(m, quotes).0
    ensures forall i | 0 <= i < |quotes| && LevelOf(quotes[i]).quantity > 0 ::
        LevelOf(quotes[i]).price in LoadQuotes(m, quotes).0
    decreases |quotes|
  {
    if quotes != [] {
      var level := LevelOf(quotes[0]);
      var next := if level.quantity > 0 then m[level.price := level.quantity] else m;
      assert forall i | 0 <= i < |quotes[1..]| :: quotes[1..][i] == quotes[i + 1];
      LoadAgreed(next, quotes[1..], target);
      forall i | 0 <= i < |quotes| && LevelOf(quotes[i]).quantity > 0
        ensures LevelOf(quotes[i]).price in LoadQuotes(m, quotes).0
      {
        if i > 0 { assert quotes[i] == quotes[1..][i - 1]; }
      }
    }
  }
}
