/** What the shadow book takes from a message, level by level. */
module ShadowLevels {
  import opened Options
  import opened OrderBooks
  import opened Shadow
  import opened Wire

  function ZerosIn(levels: seq<Level>): nat {
    if levels == [] then 0 else ZerosIn(levels[1..]) + if levels[0].quantity == 0 then 1 else 0
  }

  /** The quantity of the last positive mention of a price. */
  function LastPositive(levels: seq<Level>, price: nat): Option<nat> {
    if levels == [] then None
    else
      var later := LastPositive(levels[1..], price);
      if later.Some? then later
      else if levels[0].price == price && levels[0].quantity > 0 then Some(levels[0].quantity) else None
  }

  lemma {:induction false} LoadingShows(m: Ladder, levels: seq<Level>, price: nat)
    ensures Loaded(m, levels).1 == ZerosIn(levels)
    ensures OldQuantity(Loaded(m, levels).0, price)
         == if LastPositive(levels, price).Some? then LastPositive(levels, price) else OldQuantity(m, price)
    decreases |levels|
  {
    if levels != [] {
      LoadingShows(if levels[0].quantity > 0 then m[levels[0].price := levels[0].quantity] else m, levels[1..], price);
    }
  }

  /** A snapshot shows exactly its levels with a positive quantity, counts the others, and makes the book ready. */
  lemma SnapshotShows(s: ShadowState, bids: seq<Level>, asks: seq<Level>, id: nat, price: nat)
    ensures var r := ShadowSnapshot(s, bids, asks, id);
      && OldQuantity(r.bids, price) == LastPositive(bids, price)
      && OldQuantity(r.asks, price) == LastPositive(asks, price)
      && r.invalidRejected == s.invalidRejected + ZerosIn(bids) + ZerosIn(asks)
      && r.ready && r.lastUpdateId == Some(id)
  {
    LoadingShows(map[], bids, price);
    LoadingShows(map[], asks, price);
  }

  /** The changes at one price. */
  function ChangesAtPrice(changes: seq<LevelChange>, price: nat): seq<LevelChange> {
    if changes == [] then []
    else (if changes[0].price == price then [changes[0]] else []) + ChangesAtPrice(changes[1..], price)
  }

  /** The changes lead from one quantity to the other: each starts where the one before it ended, and changes what is
      displayed, or takes away what is not there. */
  ghost predicate Leads(changes: seq<LevelChange>, side: BookSide, before: Option<nat>, after: Option<nat>)
    decreases |changes|
  {
    if changes == [] then before == after
    else
      && changes[0].side == side && changes[0].oldQuantity == before
      && before != Some(changes[0].newQuantity)
      && Leads(changes[1..], side, if changes[0].newQuantity == 0 then None else Some(changes[0].newQuantity), after)
  }

  lemma {:induction false} AtPriceConcat(a: seq<LevelChange>, b: seq<LevelChange>, price: nat)
    ensures ChangesAtPrice(a + b, price) == ChangesAtPrice(a, price) + ChangesAtPrice(b, price)
    decreases |a|
  {
    if a == [] {
      assert a + b == b;
    } else {
      var head := if a[0].price == price then [a[0]] else [];
      assert (a + b)[1..] == a[1..] + b && (a + b)[0] == a[0];
      AtPriceConcat(a[1..], b, price);
      assert ChangesAtPrice(a + b, price) == head + ChangesAtPrice(a[1..] + b, price);
      assert ChangesAtPrice(a, price) == head + ChangesAtPrice(a[1..], price);
    }
  }

  /** The changes that an update reports at a price lead from what was displayed there to what is displayed after it. */
  lemma {:induction false} ChangesLead(m: Ladder, levels: seq<Level>, side: BookSide, price: nat)
    requires NoZeros(m)
    ensures Leads(ChangesAtPrice(Changes(m, levels, side), price), side, OldQuantity(m, price),
                  OldQuantity(Overlay(m, levels), price))
    decreases |levels|
  {
    if levels != [] {
      var next := SetLevel(m, levels[0].price, levels[0].quantity);
      var first, rest := ChangeAt(m, levels[0], side), Changes(next, levels[1..], side);
      ChangesLead(next, levels[1..], side, price);
      AtPriceConcat(first, rest, price);
      FirstLeads(m, levels[0], side, price, ChangesAtPrice(rest, price), OldQuantity(Overlay(m, levels), price));
    }
  }

  lemma FirstLeads(m: Ladder, level: Level, side: BookSide, price: nat, rest: seq<LevelChange>, after: Option<nat>)
    requires NoZeros(m)
    requires Leads(rest, side, OldQuantity(SetLevel(m, level.price, level.quantity), price), after)
    ensures Leads(ChangesAtPrice(ChangeAt(m, level, side), price) + rest, side, OldQuantity(m, price), after)
  {
    var changes := ChangeAt(m, level, side);
    assert [] + rest == rest;
    if changes != [] {
      assert changes[1..] == [] && ChangesAtPrice([], price) == [];
      assert ChangesAtPrice(changes, price) == if level.price == price then [changes[0]] else [];
      assert ([changes[0]] + rest)[1..] == rest;
    }
  }
}
