/** Clusters of nearby trades (src/analytics/clusters.rs). */
module Clusters {
  import opened Arithmetic
  import opened Options
  import opened Wire

  datatype Cluster = Cluster(
    start: nat,
    end: nat,
    high: nat,
    low: nat,
    volume: nat,
    buyVolume: nat,
    sellVolume: nat,
    delta: int,
    count: nat,
    largest: nat,
    dominant: Aggressor,
    dominance: real,
    levels: nat,
    monotonic: bool,
    firstPrice: nat,
    lastPrice: nat)

  datatype Proximity = Proximity(window: nat, range: nat)

  function Apart(a: nat, b: nat): nat {
    if a < b then b - a else a - b
  }

  predicate Fits(c: Cluster, t: Trade, p: Proximity) {
    (t.tradeTime <= c.end || t.tradeTime - c.end <= p.window) && Apart(t.price, c.lastPrice) <= p.range
  }

  function Started(t: Trade): Cluster {
    Cluster(t.tradeTime, t.tradeTime, t.price, t.price, 0, 0, 0, 0, 0, 0, t.aggressor, 0.0, 1, true, t.price, t.price)
  }

  predicate Directed(side: Aggressor, before: nat, after: nat) {
    if side == Buy then before <= after else after <= before
  }

  function Dominant(buy: nat, sell: nat): Aggressor {
    if buy >= sell then Buy else Sell
  }

  function Dominance(buy: nat, sell: nat): real {
    if buy + sell > 0 then Larger(buy, sell) as real / (buy + sell) as real else 0.0
  }

  function Grown(c: Cluster, t: Trade): Cluster {
    var buy := if t.aggressor == Buy then c.buyVolume + t.quantity else c.buyVolume;
    var sell := if t.aggressor == Sell then c.sellVolume + t.quantity else c.sellVolume;
    c.(end := t.tradeTime, high := Larger(c.high, t.price), low := Smaller(c.low, t.price),
    volume := c.volume + t.quantity, count := c.count + 1, buyVolume := buy, sellVolume := sell,
    delta := if t.aggressor == Buy then c.delta + t.quantity else c.delta - t.quantity,
    largest := Larger(c.largest, t.quantity),
    levels := if t.price != c.lastPrice then c.levels + 1 else c.levels,
    monotonic := c.monotonic && Directed(c.dominant, c.lastPrice, t.price),
    lastPrice := t.price, dominant := Dominant(buy, sell), dominance := Dominance(buy, sell))
  }

  function Joined(open: Option<Cluster>, t: Trade, p: Proximity): Cluster {
    if open.Some? && Fits(open.value, t, p) then Grown(open.value, t) else Grown(Started(t), t)
  }

  predicate Closes(open: Option<Cluster>, t: Trade, p: Proximity) {
    open.Some? && !Fits(open.value, t, p)
  }

  /** How many leading clusters ended before the cutoff. */
  function Expired(closed: seq<Cluster>, cutoff: nat): (n: nat)
    ensures n <= |closed|
    ensures forall i | 0 <= i < n :: closed[i].end < cutoff
    ensures n < |closed| ==> closed[n].end >= cutoff
  {
    if closed == [] || closed[0].end >= cutoff then 0 else 1 + Expired(closed[1..], cutoff)
  }

  class ClusterTracker {
    const proximity: Proximity
    const retention: nat
    var open: Option<Cluster>
    var closed: seq<Cluster>

    /** An open cluster knows its volume on both sides. */
    ghost predicate Valid()
      reads this
    {
      open.Some? ==> open.value.volume == open.value.buyVolume + open.value.sellVolume
    }

    constructor (proximity: Proximity, retention: nat)
      ensures Valid() && open == None && closed == [] && this.proximity == proximity && this.retention == retention
    {
      this.proximity, this.retention, open, closed := proximity, retention, None, [];
    }

    method OnTrade(t: Trade) returns (ended: Option<Cluster>)
      requires Valid()
      modifies this
      ensures Valid()
      ensures open == Some(Joined(old(open), t, proximity))
      ensures ended == if Closes(old(open), t, proximity) then old(open) else None
      ensures closed == if ended.Some? then old(closed) + [ended.value] else old(closed)
      ensures ended.Some? <==> old(open).Some?
                               && (t.tradeTime > old(open.value.end) + proximity.window
                                   || t.price > old(open.value.lastPrice) + proximity.range
                                   || old(open.value.lastPrice) > t.price + proximity.range)
    {
      var fits := false;
      if open.Some? {
        var gap := if t.tradeTime < open.value.end then 0 else t.tradeTime - open.value.end;
        var withinTime := gap <= proximity.window;
        var withinPrice := Apart(t.price, open.value.lastPrice) <= proximity.range;
        fits := withinTime && withinPrice;
      }
      ended := None;
      if !fits {
        ended := open;
        if ended.Some? { closed := closed + [ended.value]; }
        open := Some(Started(t));
      }
      var grown := Add(open.value, t);
      open := Some(grown);
    }

    method Add(c0: Cluster, t: Trade) returns (c: Cluster)
      requires c0.volume == c0.buyVolume + c0.sellVolume
      ensures c == Grown(c0, t) && c.volume == c.buyVolume + c.sellVolume
    {
      c := c0.(end := t.tradeTime, high := Larger(c0.high, t.price), low := Smaller(c0.low, t.price));
      c := c.(volume := c.volume + t.quantity, count := c.count + 1);
      match t.aggressor {
        case Buy => c := c.(buyVolume := c.buyVolume + t.quantity, delta := c.delta + t.quantity);
        case Sell => c := c.(sellVolume := c.sellVolume + t.quantity, delta := c.delta - t.quantity);
      }
      c := c.(largest := Larger(c.largest, t.quantity));
      if t.price != c.lastPrice {
        c := c.(levels := c.levels + 1);
        c := c.(monotonic := c.monotonic && Directed(c.dominant, c.lastPrice, t.price));
      }
      c := c.(lastPrice := t.price);
      var volume, side := c.sellVolume, Sell;
      if c.buyVolume >= c.sellVolume { volume, side := c.buyVolume, Buy; }
      c := c.(dominant := side, dominance := if c.volume > 0 then volume as real / c.volume as real else 0.0);
    }

    method CloseOpen() returns (ended: Option<Cluster>)
      modifies this
      ensures Valid() && ended == old(open) && open == None
      ensures closed == if ended.Some? then old(closed) + [ended.value] else old(closed)
    {
      ended := open;
      open := None;
      if ended.Some? { closed := closed + [ended.value]; }
    }

    method Prune(now: nat)
      requires Valid()
      modifies this`closed
      ensures Valid() && closed == old(closed)[Expired(old(closed), Saturating(now, retention))..]
    {
      var cutoff := if now < retention then 0 else now - retention;
      ghost var n := 0;
      while closed != [] && closed[0].end < cutoff
        invariant Valid() && n <= |old(closed)| && closed == old(closed)[n..]
        invariant forall i | 0 <= i < n :: old(closed)[i].end < cutoff
        decreases |closed|
      {
        closed := closed[1..];
        n := n + 1;
      }
      ExpiredUnique(old(closed), cutoff, n);
    }
  }

  lemma ExpiredUnique(closed: seq<Cluster>, cutoff: nat, n: nat)
    requires n <= |closed| && forall i | 0 <= i < n :: closed[i].end < cutoff
    requires n < |closed| ==> closed[n].end >= cutoff
    ensures Expired(closed, cutoff) == n
  {
  }
}
