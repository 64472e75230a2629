/** Liquidity accounting, level persistence and replenishment candidates (src/analytics/liquidity.rs). */
module Liquidity {
  import opened Arithmetic
  import opened Options
  import opened Shadow
  import opened Wire

  datatype ChangeKind = Added | Removed | Increased | Decreased | Unchanged

  datatype LevelKey = LevelKey(side: BookSide, price: nat)

  datatype Persistence = Persistence(createdAt: nat, lastSeenAt: nat, peak: nat, current: nat)

  datatype Decrease = Decrease(time: nat, quantity: nat)

  datatype LiquidityEvent =
    | LevelEvent(kind: ChangeKind, key: LevelKey, quantity: nat, time: nat)
    | Replenished(key: LevelKey, quantity: nat, time: nat)

  datatype LiquidityState = LiquidityState(
    added: nat,
    removed: nat,
    levels: map<LevelKey, Persistence>,
    drops: map<LevelKey, seq<Decrease>>,
    replenishments: nat)

  const NoLiquidity := LiquidityState(0, 0, map[], map[], 0)

  function Was(before: Option<nat>): nat {
    if before.None? then 0 else before.value
  }

  /** An absent level displays nothing; the kinds split the changes by direction and by whether the
      level appears, stays or disappears. */
  function Classify(before: Option<nat>, after: nat): (r: ChangeKind)
    ensures r == Unchanged <==> Was(before) == after
    ensures r == Added || r == Increased <==> Was(before) < after
    ensures r == Removed <==> after == 0 < Was(before)
    ensures r == Added <==> before == None && after > 0
  {
    match before
    case None => if after == 0 then Unchanged else Added
    case Some(o) =>
      if o == after then Unchanged
      else if after == 0 then Removed
      else if after > o then Increased
      else Decreased
  }

  function KeyOf(c: LevelChange): LevelKey {
    LevelKey(c.side, c.price)
  }

  function KindOf(c: LevelChange): ChangeKind {
    Classify(c.oldQuantity, c.newQuantity)
  }

  predicate Rises(c: LevelChange) {
    c.newQuantity > Was(c.oldQuantity)
  }

  /** Ticks by which the displayed quantity moved, up or down. */
  function Moved(c: LevelChange): nat {
    if Rises(c) then c.newQuantity - Was(c.oldQuantity) else Was(c.oldQuantity) - c.newQuantity
  }

  function Queue(s: LiquidityState, k: LevelKey): seq<Decrease> {
    if k in s.drops then s.drops[k] else []
  }

  /** Totals, and the history of decreases that leave something displayed. */
  function Accounted(s: LiquidityState, c: LevelChange, time: nat): LiquidityState {
    if Rises(c) then s.(added := s.added + Moved(c))
    else if KindOf(c) == Decreased then
      s.(removed := s.removed + Moved(c),
      drops := s.drops[KeyOf(c) := Queue(s, KeyOf(c)) + [Decrease(time, c.newQuantity)]])
    else s.(removed := s.removed + Moved(c))
  }

  /** Index of the first decrease that is no older than the window. */
  function FirstUnexpired(q: seq<Decrease>, time: nat, window: nat): (i: nat)
    ensures i <= |q|
    ensures forall k | 0 <= k < i :: q[k].time + window < time
    ensures i < |q| ==> time <= q[i].time + window
  {
    if q == [] || time <= q[0].time + window then 0 else 1 + FirstUnexpired(q[1..], time, window)
  }

  function Without<T>(q: seq<T>, i: nat): seq<T>
    requires i < |q|
  {
    q[..i] + q[i + 1..]
  }

  predicate Matches(s: LiquidityState, c: LevelChange, time: nat, window: nat) {
    Rises(c) && FirstUnexpired(Queue(s, KeyOf(c)), time, window) < |Queue(s, KeyOf(c))|
  }

  /** A rise uses up the oldest unexpired decrease of its level. */
  function Consumed(s: LiquidityState, c: LevelChange, time: nat, window: nat): LiquidityState
    requires Matches(s, c, time, window)
  {
    var q := Queue(s, KeyOf(c));
    s.(drops := s.drops[KeyOf(c) := Without(q, FirstUnexpired(q, time, window))],
    replenishments := s.replenishments + 1)
  }

  function Remembered(s: LiquidityState, c: LevelChange, time: nat): LiquidityState {
    var k := KeyOf(c);
    var record :=
      if k in s.levels then
        s.levels[k].(lastSeenAt := time, current := c.newQuantity,
        peak := if c.newQuantity > s.levels[k].peak then c.newQuantity else s.levels[k].peak)
      else Persistence(time, time, c.newQuantity, c.newQuantity);
    s.(levels := s.levels[k := record])
  }

  function Observed(s: LiquidityState, c: LevelChange, time: nat, window: nat): LiquidityState {
    if KindOf(c) == Unchanged then s
    else if Matches(s, c, time, window) then Remembered(Consumed(Accounted(s, c, time), c, time, window), c, time)
    else Remembered(Accounted(s, c, time), c, time)
  }

  function Emitted(s: LiquidityState, c: LevelChange, time: nat, window: nat): seq<LiquidityEvent> {
    if KindOf(c) == Unchanged then []
    else if Matches(s, c, time, window) then
      [LevelEvent(KindOf(c), KeyOf(c), Moved(c), time), Replenished(KeyOf(c), c.newQuantity, time)]
    else [LevelEvent(KindOf(c), KeyOf(c), Moved(c), time)]
  }

  predicate Forgotten(record: Persistence, now: nat, retention: nat) {
    record.lastSeenAt < Saturating(now, retention) && record.current == 0
  }

  /** Levels that are gone and were not seen for the retention time. */
  function Vanished(levels: map<LevelKey, Persistence>, now: nat, retention: nat): set<LevelKey> {
    set k | k in levels && Forgotten(levels[k], now, retention)
  }

  /** Without the leading decreases that are older than the window. */
  function Trimmed(q: seq<Decrease>, now: nat, window: nat): seq<Decrease> {
    q[FirstUnexpired(q, now, window)..]
  }

  function AllTrimmed(drops: map<LevelKey, seq<Decrease>>, now: nat, window: nat): map<LevelKey, seq<Decrease>> {
    map k | k in drops :: Trimmed(drops[k], now, window)
  }

  function Pruned(s: LiquidityState, now: nat, window: nat, retention: nat): LiquidityState {
    var gone := Vanished(s.levels, now, retention);
    s.(levels := s.levels - gone, drops := AllTrimmed(s.drops - gone, now, window))
  }

  function Cleared(s: LiquidityState): LiquidityState {
    s.(added := 0, removed := 0, levels := map[], drops := map[])
  }

  class LiquidityTracker {
    const window: nat
    const retention: nat
    var added: nat
    var removed: nat
    var levels: map<LevelKey, Persistence>
    var drops: map<LevelKey, seq<Decrease>>
    var replenishments: nat

    ghost function View(): LiquidityState
      reads this
    {
      LiquidityState(added, removed, levels, drops, replenishments)
    }

    constructor (window: nat, retention: nat)
      ensures View() == NoLiquidity && this.window == window && this.retention == retention
    {
      this.window, this.retention := window, retention;
      added, removed, levels, drops, replenishments := 0, 0, map[], map[], 0;
    }

    method ResetInterval()
      modifies this
      ensures View() == old(View()).(added := 0, removed := 0)
    {
      added, removed := 0, 0;
    }

    method Clear()
      modifies this
      ensures View() == Cleared(old(View()))
    {
      levels, drops := map[], map[];
      added, removed := 0, 0;
    }

    method OnLevelChange(c: LevelChange, time: nat) returns (out: seq<LiquidityEvent>)
      modifies this
      ensures View() == Observed(old(View()), c, time, window)
      ensures out == Emitted(old(View()), c, time, window)
    {
      var kind := Classify(c.oldQuantity, c.newQuantity);
      if kind == Unchanged { return []; }
      out := Account(c, kind, time);
      assert Queue(View(), KeyOf(c)) == Queue(old(View()), KeyOf(c)) || !Rises(c);
      if c.newQuantity > Was(c.oldQuantity) && KeyOf(c) in drops {
        var consumed := Consume(c, time);
        if consumed { out := out + [Replenished(KeyOf(c), c.newQuantity, time)]; }
      }
      Remember(c, time);
    }

    method Account(c: LevelChange, kind: ChangeKind, time: nat) returns (out: seq<LiquidityEvent>)
      requires kind == KindOf(c) != Unchanged
      modifies this
      ensures View() == Accounted(old(View()), c, time)
      ensures out == [LevelEvent(kind, KeyOf(c), Moved(c), time)]
    {
      var key := KeyOf(c);
      match kind {
        case Added =>
          added := added + c.newQuantity;
          out := [LevelEvent(Added, key, c.newQuantity, time)];
        case Removed =>
          var gone := Was(c.oldQuantity);
          removed := removed + gone;
          out := [LevelEvent(Removed, key, gone, time)];
        case Increased =>
          var more := c.newQuantity - Was(c.oldQuantity);
          added := added + more;
          out := [LevelEvent(Increased, key, more, time)];
        case Decreased =>
          var less := Was(c.oldQuantity) - c.newQuantity;
          removed := removed + less;
          drops := drops[key := (if key in drops then drops[key] else []) + [Decrease(time, c.newQuantity)]];
          out := [LevelEvent(Decreased, key, less, time)];
        case Unchanged => assert false;
      }
    }

    /** Look for the first decrease inside the window and take it out. */
    method Consume(c: LevelChange, time: nat) returns (consumed: bool)
      requires Rises(c) && KeyOf(c) in drops
      modifies this
      ensures consumed == Matches(old(View()), c, time, window)
      ensures View() == if consumed then Consumed(old(View()), c, time, window) else old(View())
    {
      var q := drops[KeyOf(c)];
      for i := 0 to |q|
        invariant forall k | 0 <= k < i :: q[k].time + window < time
        invariant View() == old(View())
      {
        if time <= q[i].time + window {
          assert FirstUnexpired(q, time, window) == i;
          drops := drops[KeyOf(c) := q[..i] + q[i + 1..]];
          replenishments := replenishments + 1;
          return true;
        }
      }
      assert FirstUnexpired(q, time, window) == |q|;
      return false;
    }

    method Remember(c: LevelChange, time: nat)
      modifies this
      ensures View() == Remembered(old(View()), c, time)
    {
      var key := KeyOf(c);
      if key in levels {
        var rec := levels[key].(lastSeenAt := time, current := c.newQuantity);
        if c.newQuantity > rec.peak { rec := rec.(peak := c.newQuantity); }
        levels := levels[key := rec];
      } else {
        levels := levels[key := Persistence(time, time, c.newQuantity, c.newQuantity)];
      }
    }

    method Prune(now: nat)
      modifies this
      ensures View() == Pruned(old(View()), now, window, retention)
    {
      var cutoff := if now < retention then 0 else now - retention;
      var stale := set k | k in levels && levels[k].lastSeenAt < cutoff && levels[k].current == 0;
      assert stale == Vanished(levels, now, retention);
      levels := levels - stale;
      drops := drops - stale;
      TrimAll(now);
    }

    method TrimAll(now: nat)
      modifies this`drops
      ensures drops == AllTrimmed(old(drops), now, window)
    {
      hide Trimmed;
      ghost var histories := drops;
      var keys := drops.Keys;
      while keys != {}
        invariant drops.Keys == histories.Keys && keys <= drops.Keys
        invariant forall k | k in keys :: drops[k] == histories[k]
        invariant forall k | k in drops && k !in keys :: drops[k] == Trimmed(histories[k], now, window)
        decreases keys
      {
        var k :| k in keys;
        var trimmed := Trim(drops[k], now);
        drops := drops[k := trimmed];
        keys := keys - {k};
      }
      assert drops == AllTrimmed(histories, now, window);
    }

    /** Drop expired decreases from the front. */
    method Trim(history: seq<Decrease>, now: nat) returns (q: seq<Decrease>)
      ensures q == Trimmed(history, now, window)
    {
      q := history;
      ghost var n := 0;
      while q != [] && q[0].time + window < now
        invariant n <= |history| && q == history[n..]
        invariant forall k | 0 <= k < n :: history[k].time + window < now
      {
        q := q[1..];
        n := n + 1;
      }
      assert FirstUnexpired(history, now, window) == n;
    }
  }
}
