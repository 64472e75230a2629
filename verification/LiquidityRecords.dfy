/** What the liquidity tracker remembers and reports of each level, in terms of the changes of that level. */
module LiquidityRecords {
  import opened Arithmetic
  import opened Liquidity
  import opened Replenishment
  import opened Shadow

  /** A level at one moment. */
  datatype Sighting = Sighting(time: nat, quantity: nat)

  /** Every sighting of a level whose quantity changed, in order, since the book was rebuilt or the level was
      pruned: gone when last seen, longer than the retention ago. */
  function Sightings(signals: seq<Signal>, cfg: Settings, n: nat, k: LevelKey): seq<Sighting>
    requires n <= |signals|
  {
    if n == 0 then []
    else
      var before := Sightings(signals, cfg, n - 1, k);
      match signals[n - 1]
      case Changed(time, c) =>
        if c.side == k.side && c.price == k.price && Was(c.oldQuantity) != c.newQuantity
        then before + [Sighting(time, c.newQuantity)] else before
      case PruneDue(now) =>
        if cfg.pruning && before != [] && LastSighting(before).quantity == 0
           && LastSighting(before).time + cfg.retention < now
        then [] else before
      case IntervalEnded(_) => before
      case BookRebuilt(_) => []
  }

  function LastSighting(s: seq<Sighting>): Sighting
    requires s != []
  {
    s[|s| - 1]
  }

  ghost predicate IsPeak(s: seq<Sighting>, q: nat) {
    && (exists i :: 0 <= i < |s| && s[i].quantity == q)
    && (forall i | 0 <= i < |s| :: s[i].quantity <= q)
  }

  /** The record of a level: first and last sighting, the last quantity and the largest one. */
  ghost predicate Recorded(levels: map<LevelKey, Persistence>, k: LevelKey, s: seq<Sighting>) {
    && (k in levels <==> s != [])
    && (s != [] ==>
          && levels[k].createdAt == s[0].time && levels[k].lastSeenAt == LastSighting(s).time
          && levels[k].current == LastSighting(s).quantity && IsPeak(s, levels[k].peak))
  }

  lemma PeakGrows(s: seq<Sighting>, x: Sighting, peak: nat)
    requires s != [] && IsPeak(s, peak)
    ensures IsPeak(s + [x], Larger(peak, x.quantity))
  {
    var all := s + [x];
    var i :| 0 <= i < |s| && s[i].quantity == peak;
    assert all[i].quantity == peak && all[|s|].quantity == x.quantity;
  }

  lemma FirstPeak(x: Sighting)
    ensures IsPeak([x], x.quantity)
  {
    assert [x][0].quantity == x.quantity;
  }

  lemma ChangeRecorded(s: LiquidityState, c: LevelChange, time: nat, window: nat, k: LevelKey, seen: seq<Sighting>)
    requires Recorded(s.levels, k, seen)
    ensures var x := Sighting(time, c.newQuantity);
      Recorded(Observed(s, c, time, window).levels, k,
               if c.side == k.side && c.price == k.price && Was(c.oldQuantity) != c.newQuantity then seen + [x]
               else seen)
  {
    hide IsPeak, Observed;
    ObservedLevels(s, c, time, window);
    FirstPeak(Sighting(time, c.newQuantity));
    if seen == [] {
      assert seen + [Sighting(time, c.newQuantity)] == [Sighting(time, c.newQuantity)];
    } else {
      PeakGrows(seen, Sighting(time, c.newQuantity), s.levels[k].peak);
    }
    assert KeyOf(c) == k <==> c.side == k.side && c.price == k.price;
  }

  lemma ObservedLevels(s: LiquidityState, c: LevelChange, time: nat, window: nat)
    ensures Observed(s, c, time, window).levels
         == if Was(c.oldQuantity) == c.newQuantity then s.levels else Remembered(s, c, time).levels
  {
    hide Queue, FirstUnexpired, Matches;
  }

  lemma PruneRecorded(s: LiquidityState, now: nat, window: nat, retention: nat, k: LevelKey, seen: seq<Sighting>)
    requires Recorded(s.levels, k, seen)
    ensures Recorded(Pruned(s, now, window, retention).levels, k,
                     if seen != [] && LastSighting(seen).quantity == 0 && LastSighting(seen).time + retention < now
                     then [] else seen)
  {
    hide IsPeak, Trimmed;
  }

  /** Over every run, for every level: it has a record if and only if it was seen to change, and the record says
      when first and last, what it showed last and at most. */
  lemma {:induction false} LevelsAreRecorded(signals: seq<Signal>, cfg: Settings, n: nat, k: LevelKey)
    requires n <= |signals|
    ensures Recorded(Tracked(NoLiquidity, signals, cfg, n).levels, k, Sightings(signals, cfg, n, k))
  {
    hide Recorded, Observed, Pruned;
    if n == 0 {
      NothingRecorded(k);
    } else {
      LevelsAreRecorded(signals, cfg, n - 1, k);
      var s, seen := Tracked(NoLiquidity, signals, cfg, n - 1), Sightings(signals, cfg, n - 1, k);
      match signals[n - 1] {
        case Changed(time, c) => ChangeRecorded(s, c, time, cfg.window, k, seen);
        case PruneDue(now) => if cfg.pruning { PruneRecorded(s, now, cfg.window, cfg.retention, k, seen); }
        case IntervalEnded(_) =>
        case BookRebuilt(_) => NothingRecorded(k);
      }
    }
  }

  lemma NothingRecorded(k: LevelKey)
    ensures Recorded(map[], k, [])
  {
  }

  /** One change: nothing is reported of a level that stays as it was; otherwise the kind and amount of the
      change, and after it, if a decrease is used up, the quantity that the level was refilled to. */
  lemma ChangeReports(s: LiquidityState, c: LevelChange, time: nat, window: nat)
    ensures var out, was, k := Emitted(s, c, time, window), Was(c.oldQuantity), LevelKey(c.side, c.price);
      && (out == [] <==> was == c.newQuantity)
      && (out != [] ==>
            && out[0] == LevelEvent(
                 if c.newQuantity == 0 then Removed
                 else if c.oldQuantity.None? then Added
                 else if c.newQuantity > was then Increased else Decreased,
                 k, if c.newQuantity > was then c.newQuantity - was else was - c.newQuantity, time)
            && (|out| > 1 ==> out[1..] == [LiquidityEvent.Replenished(k, c.newQuantity, time)]))
      && (|out| > 1 <==> c.newQuantity > was
                         && exists i :: 0 <= i < |Queue(s, k)| && time <= Queue(s, k)[i].time + window)
  {
    var q := Queue(s, KeyOf(c));
    var i := FirstUnexpired(q, time, window);
    if i < |q| { assert time <= q[i].time + window; }
  }

  /** The decrease came from a change of this level that left something displayed, and says what. */
  ghost predicate ComesFrom(d: Decrease, signals: seq<Signal>, n: nat, k: LevelKey)
    requires n <= |signals|
  {
    exists i :: 0 <= i < n && IsFall(signals[i], d, k)
  }

  predicate IsFall(x: Signal, d: Decrease, k: LevelKey) {
    && x.Changed? && x.time == d.time
    && x.change.side == k.side && x.change.price == k.price && x.change.newQuantity == d.quantity
    && 0 < x.change.newQuantity < Was(x.change.oldQuantity)
  }

  ghost predicate AllFalls(q: seq<Decrease>, signals: seq<Signal>, n: nat, k: LevelKey)
    requires n <= |signals|
  {
    forall j | 0 <= j < |q| :: ComesFrom(q[j], signals, n, k)
  }

  lemma FallsLater(q: seq<Decrease>, signals: seq<Signal>, n: nat, k: LevelKey)
    requires n < |signals| && AllFalls(q, signals, n, k)
    ensures AllFalls(q, signals, n + 1, k)
  {
    forall j | 0 <= j < |q| ensures ComesFrom(q[j], signals, n + 1, k) {
      assert ComesFrom(q[j], signals, n, k);
      var i :| 0 <= i < n && IsFall(signals[i], q[j], k);
    }
  }

  /** What a change does to the history of a level: one fall behind, or one taken out. */
  lemma QueueAfterChange(s: LiquidityState, c: LevelChange, time: nat, window: nat, k: LevelKey)
    ensures var q, r := Queue(s, k), Queue(Observed(s, c, time, window), k);
      && (forall d | d in r :: d in q || (d == Decrease(time, c.newQuantity) && c.side == k.side && c.price == k.price
                                          && 0 < c.newQuantity < Was(c.oldQuantity)))
  {
  }

  lemma QueueAfterPrune(s: LiquidityState, now: nat, window: nat, retention: nat, k: LevelKey)
    ensures forall d | d in Queue(Pruned(s, now, window, retention), k) :: d in Queue(s, k)
  {
    hide FirstUnexpired;
  }

  lemma Inherited(q: seq<Decrease>, r: seq<Decrease>, signals: seq<Signal>, n: nat, k: LevelKey)
    requires n < |signals| && AllFalls(q, signals, n, k)
    requires forall d | d in r :: d in q || IsFall(signals[n], d, k)
    ensures AllFalls(r, signals, n + 1, k)
  {
    FallsLater(q, signals, n, k);
    forall j | 0 <= j < |r| ensures ComesFrom(r[j], signals, n + 1, k) {
      assert r[j] in r;
      if r[j] in q {
        var i :| 0 <= i < |q| && q[i] == r[j];
        assert ComesFrom(q[i], signals, n + 1, k);
      } else {
        assert IsFall(signals[n], r[j], k);
      }
    }
  }

  /** Every decrease in the history of a level is a fall of that level, with its time and what it left. */
  lemma {:induction false} HistoriesAreFalls(signals: seq<Signal>, cfg: Settings, n: nat, k: LevelKey)
    requires n <= |signals|
    ensures AllFalls(Queue(Tracked(NoLiquidity, signals, cfg, n), k), signals, n, k)
  {
    hide Observed, Pruned, Queue, AllFalls;
    if n == 0 {
      NoFalls(signals, k);
    } else {
      HistoriesAreFalls(signals, cfg, n - 1, k);
      var s := Tracked(NoLiquidity, signals, cfg, n - 1);
      var next := Next(s, signals[n - 1], cfg);
      match signals[n - 1] {
        case Changed(time, c) => QueueAfterChange(s, c, time, cfg.window, k);
        case PruneDue(now) => QueueAfterPrune(s, now, cfg.window, cfg.retention, k);
        case IntervalEnded(_) => SameQueue(s, next, k);
        case BookRebuilt(_) => ClearedQueue(s, k);
      }
      Inherited(Queue(s, k), Queue(next, k), signals, n - 1, k);
    }
  }

  lemma NoFalls(signals: seq<Signal>, k: LevelKey)
    ensures AllFalls(Queue(NoLiquidity, k), signals, 0, k)
  {
  }

  lemma SameQueue(s: LiquidityState, next: LiquidityState, k: LevelKey)
    requires next.drops == s.drops
    ensures Queue(next, k) == Queue(s, k)
  {
  }

  lemma ClearedQueue(s: LiquidityState, k: LevelKey)
    ensures Queue(Cleared(s), k) == []
  {
  }
}
