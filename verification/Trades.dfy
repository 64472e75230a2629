/** Trade ingestion: duplicate and order checks (src/trades/processor.rs). */
module Trades {
  import opened Options
  import opened Ordering
  import opened Wire

  const DUPLICATE_WINDOW := 4096

  datatype TradeResult = Processed | Duplicate | Stale

  /** The value of a trade processor. */
  datatype Intake = Intake(
    lastId: Option<nat>,
    recentIds: seq<nat>,
    received: nat,
    processed: nat,
    duplicates: nat,
    stale: nat,
    buys: nat,
    sells: nat,
    lastTrade: Option<Trade>)

  const EmptyIntake := Intake(None, [], 0, 0, 0, 0, 0, 0, None)

  /** The last `n` elements. */
  function LastOf(s: seq<nat>, n: nat): seq<nat> {
    if |s| <= n then s else s[|s| - n..]
  }

  /** One trade against a window of `window` remembered ids. */
  function Taken(s: Intake, t: Trade, window: nat): (Intake, TradeResult) {
    var counted := s.(received := s.received + 1);
    if t.id in s.recentIds then (counted.(duplicates := s.duplicates + 1), Duplicate)
    else if s.lastId.Some? && t.id < s.lastId.value then (counted.(stale := s.stale + 1), Stale)
    else
      (counted.(lastId := Some(t.id), recentIds := LastOf(s.recentIds + [t.id], window),
       buys := if t.aggressor == Buy then s.buys + 1 else s.buys,
       sells := if t.aggressor == Sell then s.sells + 1 else s.sells,
       processed := s.processed + 1, lastTrade := Some(t)), Processed)
  }

  class TradeProcessor {
    var lastId: Option<nat>
    var recentIds: seq<nat>
    var received: nat
    var processed: nat
    var duplicates: nat
    var stale: nat
    var buys: nat
    var sells: nat
    var lastTrade: Option<Trade>

    ghost function View(): Intake
      reads this
    {
      Intake(lastId, recentIds, received, processed, duplicates, stale, buys, sells, lastTrade)
    }

    constructor ()
      ensures View() == EmptyIntake
    {
      lastId, recentIds, lastTrade := None, [], None;
      received, processed, duplicates, stale, buys, sells := 0, 0, 0, 0, 0, 0;
    }

    method Process(t: Trade) returns (r: TradeResult)
      requires |recentIds| <= DUPLICATE_WINDOW
      modifies this
      ensures View() == Taken(old(View()), t, DUPLICATE_WINDOW).0
      ensures r == Taken(old(View()), t, DUPLICATE_WINDOW).1
      ensures |recentIds| <= DUPLICATE_WINDOW
    {
      hide LastOf;
      LastOfNext(recentIds, t.id, DUPLICATE_WINDOW);
      received := received + 1;
      if t.id in recentIds {
        duplicates := duplicates + 1;
        return Duplicate;
      }
      if lastId.Some? {
        if t.id < lastId.value {
          stale := stale + 1;
          return Stale;
        }
      }
      lastId := Some(t.id);
      recentIds := recentIds + [t.id];
      if |recentIds| > DUPLICATE_WINDOW {
        recentIds := recentIds[1..];
      }
      match t.aggressor {
        case Buy => buys := buys + 1;
        case Sell => sells := sells + 1;
      }
      processed := processed + 1;
      lastTrade := Some(t);
      r := Processed;
    }
  }

  /** The intake after a stream of trades, and the trades it processed. */
  function Intaken(trades: seq<Trade>, window: nat): (Intake, seq<Trade>) {
    if trades == [] then (EmptyIntake, [])
    else
      var (s, accepted) := Intaken(trades[..|trades| - 1], window);
      var t := trades[|trades| - 1];
      var (next, r) := Taken(s, t, window);
      (next, if r == Processed then accepted + [t] else accepted)
  }

  function Ids(trades: seq<Trade>): (r: seq<nat>)
    ensures |r| == |trades| && forall i | 0 <= i < |r| :: r[i] == trades[i].id
  {
    seq(|trades|, i requires 0 <= i < |trades| => trades[i].id)
  }

  lemma LastOfNext(s: seq<nat>, x: nat, n: nat)
    requires |s| <= n
    ensures LastOf(s + [x], n) == if |s| + 1 > n then (s + [x])[1..] else s + [x]
  {
  }

  lemma LastOfAppend(s: seq<nat>, x: nat, n: nat)
    requires n >= 1
    ensures LastOf(LastOf(s, n) + [x], n) == LastOf(s + [x], n)
  {
  }

  lemma AscendingAppend(s: seq<nat>, x: nat)
    requires StrictlyAscending(s) && (s != [] ==> s[|s| - 1] < x)
    ensures StrictlyAscending(s + [x])
  {
    var t := s + [x];
    forall i, j | 0 <= i < j < |t| ensures t[i] < t[j] {
      if j == |s| && i < |s| - 1 { assert s[i] < s[|s| - 1]; }
    }
  }

  /** The processor remembers the last accepted ids, which ascend strictly, and its counters balance
      after `n` trades. */
  ghost predicate Remembers(s: Intake, accepted: seq<Trade>, n: nat, window: nat) {
    && StrictlyAscending(Ids(accepted))
    && s.recentIds == LastOf(Ids(accepted), window)
    && s.lastId == (if accepted == [] then None else Some(accepted[|accepted| - 1].id))
    && s.received == n == s.processed + s.duplicates + s.stale
    && s.processed == |accepted| == s.buys + s.sells
    && s.buys == CountOf(accepted, Buy) && s.sells == CountOf(accepted, Sell)
    && s.lastTrade == (if accepted == [] then None else Some(accepted[|accepted| - 1]))
  }

  /** How many trades have this aggressor. */
  function CountOf(trades: seq<Trade>, side: Aggressor): nat {
    if trades == [] then 0
    else CountOf(trades[..|trades| - 1], side) + if trades[|trades| - 1].aggressor == side then 1 else 0
  }

  lemma CountAppend(trades: seq<Trade>, t: Trade)
    ensures forall side :: CountOf(trades + [t], side) == CountOf(trades, side) + if t.aggressor == side then 1 else 0
  {
    assert (trades + [t])[..|trades|] == trades;
  }

  /** The decision on the next trade, in terms of everything accepted before. */
  lemma DecisionByAccepted(s: Intake, accepted: seq<Trade>, n: nat, t: Trade, window: nat)
    requires window >= 1 && Remembers(s, accepted, n, window)
    ensures Taken(s, t, window).1 == Processed <==> forall a | a in accepted :: a.id < t.id
    ensures Taken(s, t, window).1 == Duplicate <==> t.id in LastOf(Ids(accepted), window)
  {
    NewestIsLast(accepted, t.id, window);
  }

  lemma TakenKeepsMemory(s: Intake, accepted: seq<Trade>, n: nat, t: Trade, window: nat)
    requires window >= 1 && Remembers(s, accepted, n, window)
    ensures var (next, r) := Taken(s, t, window);
      Remembers(next, if r == Processed then accepted + [t] else accepted, n + 1, window)
  {
    hide StrictlyAscending, CountOf, LastOf;
    var (next, r) := Taken(s, t, window);
    if r == Processed {
      var ids, all := Ids(accepted), accepted + [t];
      DecisionByAccepted(s, accepted, n, t, window);
      NewestIsLast(accepted, t.id, window);
      assert Ids(all) == ids + [t.id];
      CountAppend(accepted, t);
      AscendingAppend(ids, t.id);
      LastOfAppend(ids, t.id, window);
      assert all[|all| - 1] == t;
    }
  }

  /** After every stream the window is the last ids accepted, they ascend strictly, and received =
      processed + duplicate + stale, processed = buy + sell. */
  lemma {:induction false} IntakeInvariant(trades: seq<Trade>, window: nat)
    requires window >= 1
    ensures Remembers(Intaken(trades, window).0, Intaken(trades, window).1, |trades|, window)
  {
    if trades != [] {
      var before, t := trades[..|trades| - 1], trades[|trades| - 1];
      IntakeInvariant(before, window);
      TakenKeepsMemory(Intaken(before, window).0, Intaken(before, window).1, |before|, t, window);
    }
  }

  lemma LastIsRecent(s: seq<nat>, window: nat)
    requires s != [] && window >= 1
    ensures s[|s| - 1] in LastOf(s, window)
  {
    var r := LastOf(s, window);
    assert r[|r| - 1] == s[|s| - 1];
  }

  /** A trade is processed iff its id exceeds every id processed before, even ids that the window
      has forgotten; a rejected trade is a duplicate iff the window still remembers its id. */
  lemma ProcessedIffNewest(trades: seq<Trade>, t: Trade, window: nat)
    requires window >= 1
    ensures var (s, accepted) := Intaken(trades, window);
      && (Taken(s, t, window).1 == Processed <==> forall a | a in accepted :: a.id < t.id)
      && (Taken(s, t, window).1 == Duplicate <==> t.id in LastOf(Ids(accepted), window))
  {
    IntakeInvariant(trades, window);
    DecisionByAccepted(Intaken(trades, window).0, Intaken(trades, window).1, |trades|, t, window);
  }

  lemma NewestIsLast(accepted: seq<Trade>, id: nat, window: nat)
    requires window >= 1 && StrictlyAscending(Ids(accepted))
    ensures (forall a | a in accepted :: a.id < id) <==> accepted == [] || accepted[|accepted| - 1].id < id
    ensures accepted != [] ==> accepted[|accepted| - 1].id in LastOf(Ids(accepted), window)
    ensures forall x | x in LastOf(Ids(accepted), window) :: x <= accepted[|accepted| - 1].id
  {
    var ids := Ids(accepted);
    if accepted != [] {
      LastIsRecent(ids, window);
      assert accepted[|accepted| - 1] in accepted;
      forall x | x in ids ensures x <= ids[|ids| - 1] {}
      assert forall x | x in LastOf(ids, window) :: x in ids;
      if ids[|ids| - 1] < id {
        forall a | a in accepted ensures a.id < id {
          var i :| 0 <= i < |accepted| && accepted[i] == a;
          assert ids[i] in ids;
        }
      }
    }
  }

  /** Bounding the window does not change which trades are accepted: any window does what a
      processor that never forgets an id does. */
  lemma {:induction false} WindowUnobservable(trades: seq<Trade>, window: nat)
    requires window >= 1
    ensures Intaken(trades, window).1 == Intaken(trades, |trades| + 1).1
  {
    AcceptedByAnyWindow(trades, window, |trades| + 1);
  }

  lemma {:induction false} AcceptedByAnyWindow(trades: seq<Trade>, a: nat, b: nat)
    requires a >= 1 && b >= 1
    ensures Intaken(trades, a).1 == Intaken(trades, b).1
  {
    if trades != [] {
      var before, t := trades[..|trades| - 1], trades[|trades| - 1];
      AcceptedByAnyWindow(before, a, b);
      ProcessedIffNewest(before, t, a);
      ProcessedIffNewest(before, t, b);
    }
  }

  /** A window as long as the stream is a seen-set: it remembers every accepted id. */
  lemma LongWindowIsSeenSet(trades: seq<Trade>, id: nat)
    ensures var (s, accepted) := Intaken(trades, |trades| + 1);
      id in s.recentIds <==> exists a :: a in accepted && a.id == id
  {
    IntakeInvariant(trades, |trades| + 1);
    var (s, accepted) := Intaken(trades, |trades| + 1);
    var ids := Ids(accepted);
    assert s.recentIds == ids;
    if id in ids {
      var i :| 0 <= i < |ids| && ids[i] == id;
      assert accepted[i] in accepted && accepted[i].id == id;
    }
    if a :| a in accepted && a.id == id {
      var i :| 0 <= i < |accepted| && accepted[i] == a;
      assert ids[i] == id;
    }
  }

  /** Feeding the accepted trades through a fresh processor accepts them all again. */
  lemma {:induction false} AcceptedAreAcceptedAgain(trades: seq<Trade>, window: nat)
    requires window >= 1 && StrictlyAscending(Ids(trades))
    ensures Intaken(trades, window).1 == trades
  {
    if trades != [] {
      hide Taken;
      var before, t := trades[..|trades| - 1], trades[|trades| - 1];
      assert Ids(before) == Ids(trades)[..|before|];
      AcceptedAreAcceptedAgain(before, window);
      ProcessedIffNewest(before, t, window);
      forall a | a in before ensures a.id < t.id {
        var i :| 0 <= i < |before| && before[i] == a;
        assert Ids(trades)[i] < Ids(trades)[|trades| - 1];
      }
      assert before + [t] == trades;
    }
  }
}
