/** Messages of the exchange streams (src/binance/types.rs, src/trades/trade.rs). */
module Wire {
  import opened Levels

  /** One `[price, quantity]` pair of a message. */
  datatype Quote = Quote(price: Numeral, quantity: Numeral)

  /** A depth event: `firstId` is U, `finalId` is u, `previousFinalId` is pu. */
  datatype DepthUpdate = DepthUpdate(
    eventTime: nat,
    transactionTime: nat,
    firstId: nat,
    finalId: nat,
    previousFinalId: nat,
    bids: seq<Quote>,
    asks: seq<Quote>)

  datatype BookSide = Bid | Ask

  datatype Aggressor = Buy | Sell

  /** A normalized trade; prices and quantities are already in ticks. */
  datatype Trade = Trade(
    id: nat,
    price: nat,
    quantity: nat,
    eventTime: nat,
    tradeTime: nat,
    aggressor: Aggressor)

  /** A price level in ticks. */
  datatype Level = Level(price: nat, quantity: nat)

  /** Both numbers of the pair parse. */
  predicate WellFormedQuote(q: Quote) {
    q.price != Malformed && q.quantity != Malformed
  }

  predicate WellFormed(quotes: seq<Quote>) {
    forall i | 0 <= i < |quotes| :: WellFormedQuote(quotes[i])
  }

  function LevelOf(q: Quote): Level
    requires WellFormedQuote(q)
  {
    Level(ParseTicks(q.price).value, ParseTicks(q.quantity).value)
  }

  /** The levels of a well-formed list of pairs, in order. */
  function LevelsOf(quotes: seq<Quote>): (r: seq<Level>)
    requires WellFormed(quotes)
    ensures |r| == |quotes|
    ensures forall i | 0 <= i < |r| :: r[i] == LevelOf(quotes[i])
  {
    seq(|quotes|, i requires 0 <= i < |quotes| => LevelOf(quotes[i]))
  }
}
