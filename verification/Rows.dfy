/** Recorded rows and their reconstruction (src/recording/recorder.rs, src/replay/reader.rs). */
module Rows {
  import opened Levels
  import opened OrderBooks
  import opened Wire

  /** One level of one depth event; the rows of an event share its sequence number. */
  datatype LevelRow = LevelRow(
    seqNo: nat,
    eventTime: nat,
    transactionTime: nat,
    firstId: nat,
    finalId: nat,
    previousFinalId: nat,
    side: BookSide,
    price: nat,
    quantity: nat)

  datatype SnapshotRow = SnapshotRow(seqNo: nat, updateId: nat, bids: seq<Level>, asks: seq<Level>)

  datatype TradeRow = TradeRow(seqNo: nat, trade: Trade)

  datatype NumberedUpdate = NumberedUpdate(seqNo: nat, update: DepthUpdate)

  /** The levels of the pairs that parse; the others are skipped. */
  function Encoded(quotes: seq<Quote>): seq<Level> {
    if quotes == [] then []
    else EncodedQuote(quotes[0]) + Encoded(quotes[1..])
  }

  function EncodedQuote(q: Quote): seq<Level> {
    if WellFormedQuote(q) then [LevelOf(q)] else []
  }

  function Printed(level: Level): Quote {
    Quote(PrintPrice(level.price), PrintQuantity(level.quantity))
  }

  /** Levels back to text pairs. */
  function Decoded(levels: seq<Level>): (r: seq<Quote>)
    ensures |r| == |levels|
    ensures forall i | 0 <= i < |r| :: r[i] == Printed(levels[i])
  {
    seq(|levels|, i requires 0 <= i < |levels| => Printed(levels[i]))
  }

  /** What is left of an event after it was recorded and reconstructed. */
  function Reprinted(e: DepthUpdate): DepthUpdate {
    e.(bids := Decoded(Encoded(e.bids)), asks := Decoded(Encoded(e.asks)))
  }

  function RowOf(seqNo: nat, e: DepthUpdate, side: BookSide, level: Level): LevelRow {
    LevelRow(seqNo, e.eventTime, e.transactionTime, e.firstId, e.finalId, e.previousFinalId, side,
             level.price, level.quantity)
  }

  function SideRows(seqNo: nat, e: DepthUpdate, side: BookSide, levels: seq<Level>): (r: seq<LevelRow>)
    ensures |r| == |levels|
    ensures forall i | 0 <= i < |r| :: r[i] == RowOf(seqNo, e, side, levels[i])
  {
    seq(|levels|, i requires 0 <= i < |levels| => RowOf(seqNo, e, side, levels[i]))
  }

  /** The rows of an event: its bids, then its asks. */
  function RowsOf(seqNo: nat, e: DepthUpdate): seq<LevelRow> {
    SideRows(seqNo, e, Bid, Encoded(e.bids)) + SideRows(seqNo, e, Ask, Encoded(e.asks))
  }

  method RecordDepthRows(seqNo: nat, e: DepthUpdate) returns (rows: seq<LevelRow>)
    ensures rows == RowsOf(seqNo, e)
  {
    var bidRows := RecordSide(seqNo, e, Bid, e.bids);
    var askRows := RecordSide(seqNo, e, Ask, e.asks);
    rows := bidRows + askRows;
  }

  method RecordSide(seqNo: nat, e: DepthUpdate, side: BookSide, quotes: seq<Quote>) returns (rows: seq<LevelRow>)
    ensures rows == SideRows(seqNo, e, side, Encoded(quotes))
  {
    hide Encoded, RowOf;
    rows := [];
    ghost var done: seq<Level> := [];
    assert quotes[0..] == quotes;
    for i := 0 to |quotes|
      invariant done + Encoded(quotes[i..]) == Encoded(quotes)
      invariant rows == SideRows(seqNo, e, side, done)
    {
      EncodedHead(quotes[i..]);
      assert quotes[i..][1..] == quotes[i + 1..];
      if WellFormedQuote(quotes[i]) {
        rows := rows + [RowOf(seqNo, e, side, LevelOf(quotes[i]))];
        done := done + [LevelOf(quotes[i])];
      }
    }
    assert quotes[|quotes|..] == [];
    EncodedHead([]);
  }

  lemma EncodedHead(quotes: seq<Quote>)
    ensures quotes == [] ==> Encoded(quotes) == []
    ensures quotes != [] ==> Encoded(quotes) == EncodedQuote(quotes[0]) + Encoded(quotes[1..])
  {
  }

  /** Pairs that do not parse are left out, the others become levels in their order. */
  lemma {:induction false} EncodingSkips(a: seq<Quote>, q: Quote, b: seq<Quote>)
    ensures Encoded([]) == []
    ensures Encoded(a + [q] + b)
         == Encoded(a) + (if q.price.Malformed? || q.quantity.Malformed? then []
                          else [Level(ParseTicks(q.price).value, ParseTicks(q.quantity).value)]) + Encoded(b)
    decreases |a|
  {
    hide Encoded, EncodedQuote;
    EncodedQuoteSkips(q);
    EncodedHead([]);
    EncodedHead(a + [q] + b);
    if a == [] {
      assert a + [q] + b == [q] + b && ([q] + b)[1..] == b;
    } else {
      EncodedHead(a);
      assert (a + [q] + b)[1..] == a[1..] + [q] + b;
      EncodingSkips(a[1..], q, b);
    }
  }

  lemma EncodedQuoteSkips(q: Quote)
    ensures EncodedQuote(q) == if q.price.Malformed? || q.quantity.Malformed? then []
                               else [Level(ParseTicks(q.price).value, ParseTicks(q.quantity).value)]
  {
  }

  /** A row says which event it belongs to and what one level of it was. */
  predicate RowSays(r: LevelRow, seqNo: nat, e: DepthUpdate, side: BookSide, level: Level) {
    && r.seqNo == seqNo && r.eventTime == e.eventTime && r.transactionTime == e.transactionTime
    && r.firstId == e.firstId && r.finalId == e.finalId && r.previousFinalId == e.previousFinalId
    && r.side == side && r.price == level.price && r.quantity == level.quantity
  }

  /** The rows of an event: one for each of its bids that parses, then one for each such ask. */
  lemma RowsSay(seqNo: nat, e: DepthUpdate, i: nat)
    requires i < |RowsOf(seqNo, e)|
    ensures |RowsOf(seqNo, e)| == |Encoded(e.bids)| + |Encoded(e.asks)|
    ensures var r, n := RowsOf(seqNo, e)[i], |Encoded(e.bids)|;
      if i < n then RowSays(r, seqNo, e, Bid, Encoded(e.bids)[i])
      else RowSays(r, seqNo, e, Ask, Encoded(e.asks)[i - n])
  {
  }

  /** Text pairs of the rows of one side, in stored order. */
  function SideQuotes(rows: seq<LevelRow>, side: BookSide): seq<Quote> {
    if rows == [] then []
    else
      (if rows[0].side == side then [Printed(Level(rows[0].price, rows[0].quantity))] else [])
      + SideQuotes(rows[1..], side)
  }

  /** How many leading rows carry this sequence number. */
  function GroupLength(rows: seq<LevelRow>, seqNo: nat): (n: nat)
    ensures n <= |rows|
    ensures forall i | 0 <= i < n :: rows[i].seqNo == seqNo
    ensures n < |rows| ==> rows[n].seqNo != seqNo
  {
    if rows != [] && rows[0].seqNo == seqNo then 1 + GroupLength(rows[1..], seqNo) else 0
  }

  /** The event of one group; its header is that of the first row. */
  function GroupEvent(rows: seq<LevelRow>): NumberedUpdate
    requires rows != []
  {
    var r := rows[0];
    NumberedUpdate(r.seqNo, DepthUpdate(r.eventTime, r.transactionTime, r.firstId, r.finalId, r.previousFinalId,
                                        SideQuotes(rows, Bid), SideQuotes(rows, Ask)))
  }

  function Regrouped(rows: seq<LevelRow>): seq<NumberedUpdate>
    decreases |rows|
  {
    if rows == [] then []
    else
      var n := GroupLength(rows, rows[0].seqNo);
      [GroupEvent(rows[..n])] + Regrouped(rows[n..])
  }

  lemma {:induction false} SideQuotesConcat(a: seq<LevelRow>, b: seq<LevelRow>, side: BookSide)
    ensures SideQuotes(a + b, side) == SideQuotes(a, side) + SideQuotes(b, side)
  {
    hide Printed;
    assert SideQuotes([], side) == [];
    if a == [] {
      assert a + b == b;
    } else {
      assert (a + b)[1..] == a[1..] + b;
      SideQuotesConcat(a[1..], b, side);
    }
  }

  /** One pass over the rows, starting a new event whenever the sequence number changes. */
  method ReconstructDepthUpdates(rows: seq<LevelRow>) returns (out: seq<NumberedUpdate>)
    ensures out == Regrouped(rows)
  {
    hide GroupEvent, IsGroup, Regrouped, SideQuotes;
    out := [];
    var i := 0;
    assert rows[0..] == rows;
    while i < |rows|
      invariant 0 <= i <= |rows|
      invariant out + Regrouped(rows[i..]) == Regrouped(rows)
    {
      var update, next := TakeGroup(rows, i);
      RegroupSplits(rows[i..next], rows[next..]);
      assert rows[i..] == rows[i..next] + rows[next..];
      out := out + [update];
      i := next;
    }
    assert rows[i..] == [];
    RegroupedNone();
  }

  lemma RegroupedNone()
    ensures Regrouped([]) == []
  {
  }

  /** The event that starts at `start`, and where the next one starts. */
  method TakeGroup(rows: seq<LevelRow>, start: nat) returns (update: NumberedUpdate, next: nat)
    requires start < |rows|
    ensures start < next <= |rows|
    ensures IsGroup(rows[start..next], rows[next..])
    ensures update == GroupEvent(rows[start..next])
  {
    hide Printed, SideQuotes;
    assert rows[start..start] == [];
    SideQuotesOne(rows[start]);
    var first := rows[start];
    var bids: seq<Quote>, asks: seq<Quote> := [], [];
    next := start;
    while next < |rows| && rows[next].seqNo == first.seqNo
      invariant start <= next <= |rows|
      invariant forall j | start <= j < next :: rows[j].seqNo == first.seqNo
      invariant bids == SideQuotes(rows[start..next], Bid) && asks == SideQuotes(rows[start..next], Ask)
    {
      var r := rows[next];
      var pair := Printed(Level(r.price, r.quantity));
      assert rows[start..next + 1] == rows[start..next] + [r];
      SideQuotesOne(r);
      SideQuotesConcat(rows[start..next], [r], Bid);
      SideQuotesConcat(rows[start..next], [r], Ask);
      if r.side == Bid { bids := bids + [pair]; } else { asks := asks + [pair]; }
      next := next + 1;
    }
    update := NumberedUpdate(first.seqNo, DepthUpdate(first.eventTime, first.transactionTime, first.firstId,
                                                      first.finalId, first.previousFinalId, bids, asks));
  }

  lemma SideQuotesOne(r: LevelRow)
    ensures SideQuotes([], Bid) == [] && SideQuotes([], Ask) == []
    ensures SideQuotes([r], Bid) == if r.side == Bid then [Printed(Level(r.price, r.quantity))] else []
    ensures SideQuotes([r], Ask) == if r.side == Ask then [Printed(Level(r.price, r.quantity))] else []
  {
  }

  /** `group` is exactly the run of equal sequence numbers that `group + rest` starts with. */
  ghost predicate IsGroup(group: seq<LevelRow>, rest: seq<LevelRow>) {
    && group != []
    && (forall i | 0 <= i < |group| :: group[i].seqNo == group[0].seqNo)
    && (rest != [] ==> rest[0].seqNo != group[0].seqNo)
  }

  lemma RegroupSplits(group: seq<LevelRow>, rest: seq<LevelRow>)
    requires IsGroup(group, rest)
    ensures Regrouped(group + rest) == [GroupEvent(group)] + Regrouped(rest)
  {
    var all := group + rest;
    GroupLengthUnique(all, group[0].seqNo, |group|);
    assert all[..|group|] == group && all[|group|..] == rest;
  }

  lemma GroupLengthUnique(rows: seq<LevelRow>, seqNo: nat, n: nat)
    requires n <= |rows|
    requires forall i | 0 <= i < n :: rows[i].seqNo == seqNo
    requires n < |rows| ==> rows[n].seqNo != seqNo
    ensures n == GroupLength(rows, seqNo)
  {
  }

  /** The rows of a list of events, one event after the other. */
  function Flattened(updates: seq<NumberedUpdate>): seq<LevelRow> {
    if updates == [] then []
    else RowsOf(updates[0].seqNo, updates[0].update) + Flattened(updates[1..])
  }

  /** At least one level of the event was recorded. */
  predicate LeavesRows(e: DepthUpdate) {
    RowsOf(0, e) != []
  }

  ghost predicate Recorded(updates: seq<NumberedUpdate>) {
    && (forall i | 0 <= i < |updates| :: LeavesRows(updates[i].update))
    && (forall i, j | 0 <= i < j < |updates| :: updates[i].seqNo < updates[j].seqNo)
  }

  function AllReprinted(updates: seq<NumberedUpdate>): (r: seq<NumberedUpdate>)
    ensures |r| == |updates|
    ensures forall i | 0 <= i < |r| :: r[i] == NumberedUpdate(updates[i].seqNo, Reprinted(updates[i].update))
  {
    seq(|updates|, i requires 0 <= i < |updates| => NumberedUpdate(updates[i].seqNo, Reprinted(updates[i].update)))
  }

  lemma {:induction false} SideRowsQuotes(seqNo: nat, e: DepthUpdate, rowSide: BookSide, levels: seq<Level>,
                                          side: BookSide)
    ensures SideQuotes(SideRows(seqNo, e, rowSide, levels), side) == if side == rowSide then Decoded(levels) else []
    decreases |levels|
  {
    var rows := SideRows(seqNo, e, rowSide, levels);
    if levels != [] {
      assert rows[1..] == SideRows(seqNo, e, rowSide, levels[1..]);
      SideRowsQuotes(seqNo, e, rowSide, levels[1..], side);
      assert Decoded(levels) == [Printed(levels[0])] + Decoded(levels[1..]);
    }
  }

  /** The rows of one event regroup to that event, reprinted. */
  lemma GroupRestores(seqNo: nat, e: DepthUpdate)
    requires LeavesRows(e)
    ensures RowsOf(seqNo, e) != [] && GroupEvent(RowsOf(seqNo, e)) == NumberedUpdate(seqNo, Reprinted(e))
  {
    var bids, asks := SideRows(seqNo, e, Bid, Encoded(e.bids)), SideRows(seqNo, e, Ask, Encoded(e.asks));
    SideQuotesConcat(bids, asks, Bid);
    SideQuotesConcat(bids, asks, Ask);
    SideRowsQuotes(seqNo, e, Bid, Encoded(e.bids), Bid);
    SideRowsQuotes(seqNo, e, Bid, Encoded(e.bids), Ask);
    SideRowsQuotes(seqNo, e, Ask, Encoded(e.asks), Bid);
    SideRowsQuotes(seqNo, e, Ask, Encoded(e.asks), Ask);
  }

  /** Flattening events into rows and regrouping the rows restores every event and its number. */
  lemma {:induction false} RegroupInvertsFlatten(updates: seq<NumberedUpdate>)
    requires Recorded(updates)
    ensures Regrouped(Flattened(updates)) == AllReprinted(updates)
  {
    hide RowsOf, Reprinted, GroupEvent, Regrouped, LeavesRows, IsGroup;
    if updates == [] {
      RegroupedNone();
    } else {
      var first, rest := updates[0], updates[1..];
      var head, tail := RowsOf(first.seqNo, first.update), Flattened(rest);
      RegroupInvertsFlatten(rest);
      GroupRestores(first.seqNo, first.update);
      FirstIsGroup(updates);
      RegroupSplits(head, tail);
      assert AllReprinted(updates) == [NumberedUpdate(first.seqNo, Reprinted(first.update))] + AllReprinted(rest);
    }
  }

  lemma FirstIsGroup(updates: seq<NumberedUpdate>)
    requires Recorded(updates) && updates != []
    ensures IsGroup(RowsOf(updates[0].seqNo, updates[0].update), Flattened(updates[1..]))
  {
    hide RowsOf, Reprinted, GroupEvent, LeavesRows;
    var first, rest := updates[0], updates[1..];
    GroupRestores(first.seqNo, first.update);
    NumbersOfRows(first.seqNo, first.update);
    if Flattened(rest) != [] { FlattenedStarts(rest); }
  }

  lemma NumbersOfRows(seqNo: nat, e: DepthUpdate)
    ensures forall i | 0 <= i < |RowsOf(seqNo, e)| :: RowsOf(seqNo, e)[i].seqNo == seqNo
  {
  }

  lemma FlattenedStarts(updates: seq<NumberedUpdate>)
    requires Recorded(updates) && Flattened(updates) != []
    ensures updates != [] && Flattened(updates)[0].seqNo == updates[0].seqNo
  {
    GroupRestores(updates[0].seqNo, updates[0].update);
  }

  /** Prices with at most two and quantities with at most four decimals. */
  predicate OnGrid(quotes: seq<Quote>) {
    forall i | 0 <= i < |quotes| ::
      && WellFormedQuote(quotes[i])
      && LevelOf(quotes[i]).price % PRICE_GRID == 0
      && LevelOf(quotes[i]).quantity % QUANTITY_GRID == 0
  }

  lemma {:induction false} EncodedAll(quotes: seq<Quote>)
    requires WellFormed(quotes)
    ensures Encoded(quotes) == LevelsOf(quotes)
  {
    if quotes != [] {
      EncodedAll(quotes[1..]);
      assert LevelsOf(quotes) == [LevelOf(quotes[0])] + LevelsOf(quotes[1..]);
    }
  }

  /** On the grid, recording and reprinting changes no tick. */
  lemma ReprintKeepsLevels(quotes: seq<Quote>)
    requires OnGrid(quotes)
    ensures WellFormed(quotes) && WellFormed(Decoded(Encoded(quotes)))
    ensures LevelsOf(Decoded(Encoded(quotes))) == LevelsOf(quotes)
  {
    EncodedAll(quotes);
    var levels := LevelsOf(quotes);
    forall i | 0 <= i < |levels|
      ensures WellFormedQuote(Printed(levels[i])) && LevelOf(Printed(levels[i])) == levels[i]
    {
      PriceRoundTrip(levels[i].price);
      QuantityRoundTrip(levels[i].quantity);
    }
  }

  ghost predicate GridEvent(e: DepthUpdate) {
    OnGrid(e.bids) && OnGrid(e.asks)
  }

  /** A reprinted event has the effect of the original on every book. */
  lemma ReprintKeepsEffect(b: Book, e: DepthUpdate)
    requires GridEvent(e)
    ensures UpdateApplied(b, Reprinted(e).bids, Reprinted(e).asks, e.finalId)
         == UpdateApplied(b, e.bids, e.asks, e.finalId)
  {
    var r := Reprinted(e);
    ReprintKeepsLevels(e.bids);
    ReprintKeepsLevels(e.asks);
    ApplyQuotesIsOverlay(b.bids, e.bids);
    ApplyQuotesIsOverlay(b.asks, e.asks);
    ApplyQuotesIsOverlay(b.bids, r.bids);
    ApplyQuotesIsOverlay(b.asks, r.asks);
  }

  /** The levels of the rows of one side. */
  function SideLevels(rows: seq<LevelRow>, side: BookSide): seq<Level> {
    if rows == [] then []
    else (if rows[0].side == side then [Level(rows[0].price, rows[0].quantity)] else []) + SideLevels(rows[1..], side)
  }

  ghost predicate GridRow(r: LevelRow) {
    r.price % PRICE_GRID == 0 && r.quantity % QUANTITY_GRID == 0
  }

  lemma {:induction false} SideQuotesLevels(rows: seq<LevelRow>, side: BookSide)
    requires forall r | r in rows :: GridRow(r)
    ensures WellFormed(SideQuotes(rows, side)) && LevelsOf(SideQuotes(rows, side)) == SideLevels(rows, side)
  {
    if rows != [] {
      var r, rest := rows[0], rows[1..];
      SideQuotesLevels(rest, side);
      assert r in rows;
      PriceRoundTrip(r.price);
      QuantityRoundTrip(r.quantity);
      assert LevelOf(Printed(Level(r.price, r.quantity))) == Level(r.price, r.quantity);
    }
  }

  lemma {:induction false} SideLevelsMembers(rows: seq<LevelRow>, side: BookSide, x: Level)
    ensures x in SideLevels(rows, side) <==> exists r :: r in rows && r.side == side && Level(r.price, r.quantity) == x
  {
    if rows != [] {
      SideLevelsMembers(rows[1..], side, x);
      assert rows[0] in rows && forall r :: r in rows <==> r == rows[0] || r in rows[1..];
    }
  }

  /** Storing the rows of one event in another order, or some of them more than once, does not
      change what replaying the event does to a book, as long as each side names a price once. */
  lemma RowOrderIrrelevant(b: Book, rows: seq<LevelRow>, stored: seq<LevelRow>)
    requires NoZeros(b.bids) && NoZeros(b.asks)
    requires rows != [] && stored != []
    requires forall r :: r in rows <==> r in stored
    requires forall r | r in rows :: GridRow(r) && r.finalId == rows[0].finalId
    requires DistinctPrices(SideLevels(rows, Bid)) && DistinctPrices(SideLevels(rows, Ask))
    ensures var e, s := GroupEvent(rows).update, GroupEvent(stored).update;
      UpdateApplied(b, s.bids, s.asks, s.finalId) == UpdateApplied(b, e.bids, e.asks, e.finalId)
  {
    assert stored[0] in rows;
    SideEffect(b.bids, rows, stored, Bid);
    SideEffect(b.asks, rows, stored, Ask);
  }

  lemma SideEffect(m: Ladder, rows: seq<LevelRow>, stored: seq<LevelRow>, side: BookSide)
    requires NoZeros(m)
    requires forall r :: r in rows <==> r in stored
    requires forall r | r in rows :: GridRow(r)
    requires DistinctPrices(SideLevels(rows, side))
    ensures ApplyQuotes(m, SideQuotes(rows, side)) == ApplyQuotes(m, SideQuotes(stored, side))
  {
    SideQuotesLevels(rows, side);
    SideQuotesLevels(stored, side);
    ApplyQuotesIsOverlay(m, SideQuotes(rows, side));
    ApplyQuotesIsOverlay(m, SideQuotes(stored, side));
    forall x ensures x in SideLevels(rows, side) <==> x in SideLevels(stored, side) {
      SideLevelsMembers(rows, side, x);
      SideLevelsMembers(stored, side, x);
    }
    OverlayOrderIrrelevant(m, SideLevels(rows, side), SideLevels(stored, side));
  }
}
