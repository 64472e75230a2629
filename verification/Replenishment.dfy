/** Replenishment over whole runs of the liquidity tracker: pruning is unobservable, and between two
    clears every level emits as many replenishments as any pairing of its falls and rises allows. */
module Replenishment {
  import opened Liquidity
  import opened Options
  import opened Pairings
  import opened Shadow
  import opened Wire

  /** What the analytics engine makes the tracker do, with the time of the event that caused it. */
  datatype Signal =
    | Changed(time: nat, change: LevelChange)
    | PruneDue(time: nat)
    | IntervalEnded(time: nat)
    | BookRebuilt(time: nat)

  datatype Settings = Settings(window: nat, retention: nat, pruning: bool)

  function Next(s: LiquidityState, x: Signal, cfg: Settings): LiquidityState {
    match x
    case Changed(time, c) => Observed(s, c, time, cfg.window)
    case PruneDue(now) => if cfg.pruning then Pruned(s, now, cfg.window, cfg.retention) else s
    case IntervalEnded(_) => s.(added := 0, removed := 0)
    case BookRebuilt(_) => Cleared(s)
  }

  function Out(s: LiquidityState, x: Signal, cfg: Settings): seq<LiquidityEvent> {
    if x.Changed? then Emitted(s, x.change, x.time, cfg.window) else []
  }

  function Tracked(s: LiquidityState, signals: seq<Signal>, cfg: Settings, n: nat): LiquidityState
    requires n <= |signals|
  {
    if n == 0 then s else Next(Tracked(s, signals, cfg, n - 1), signals[n - 1], cfg)
  }

  function Events(s: LiquidityState, signals: seq<Signal>, cfg: Settings, n: nat): seq<LiquidityEvent>
    requires n <= |signals|
  {
    if n == 0 then []
    else Events(s, signals, cfg, n - 1) + Out(Tracked(s, signals, cfg, n - 1), signals[n - 1], cfg)
  }

  ghost predicate TimesInOrder(signals: seq<Signal>) {
    forall i, j | 0 <= i < j < |signals| :: signals[i].time <= signals[j].time
  }

  /** `short` is `long` without some leading decreases that had expired by `now`. */
  ghost predicate Behind(short: seq<Decrease>, long: seq<Decrease>, now: nat, window: nat) {
    && |short| <= |long|
    && short == long[|long| - |short|..]
    && forall i | 0 <= i < |long| - |short| :: long[i].time + window < now
  }

  /** A recorded decrease is no newer than the last sighting of its level. */
  ghost predicate Sighted(s: LiquidityState, k: LevelKey, now: nat) {
    var q := Queue(s, k);
    q != [] ==>
      && k in s.levels && s.levels[k].lastSeenAt <= now
      && forall i | 0 <= i < |q| :: q[i].time <= s.levels[k].lastSeenAt
  }

  /** A tracker that prunes and one that does not. */
  ghost predicate Agree(p: LiquidityState, u: LiquidityState, now: nat, window: nat) {
    && p.added == u.added && p.removed == u.removed && p.replenishments == u.replenishments
    && (forall k :: Behind(Queue(p, k), Queue(u, k), now, window))
    && (forall k :: Sighted(p, k, now))
  }

  lemma FirstUnexpiredUnique(q: seq<Decrease>, time: nat, window: nat, i: nat)
    requires i <= |q| && forall k | 0 <= k < i :: q[k].time + window < time
    requires i < |q| ==> time <= q[i].time + window
    ensures FirstUnexpired(q, time, window) == i
  {
  }

  lemma BehindIndex(short: seq<Decrease>, long: seq<Decrease>, now: nat, window: nat, time: nat)
    requires Behind(short, long, now, window) && now <= time
    ensures forall k | 0 <= k < |long| - |short| :: long[k].time + window < time
    ensures forall k | |long| - |short| <= k < |long| :: long[k] == short[k - (|long| - |short|)]
  {
  }

  lemma BehindFindsSame(short: seq<Decrease>, long: seq<Decrease>, now: nat, time: nat, window: nat)
    requires Behind(short, long, now, window) && now <= time
    ensures FirstUnexpired(long, time, window) == |long| - |short| + FirstUnexpired(short, time, window)
  {
    var d, i := |long| - |short|, FirstUnexpired(short, time, window);
    BehindIndex(short, long, now, window, time);
    FirstUnexpiredUnique(long, time, window, d + i);
  }

  lemma BehindWithout(short: seq<Decrease>, long: seq<Decrease>, now: nat, time: nat, window: nat, i: nat)
    requires Behind(short, long, now, window) && now <= time && i < |short|
    ensures Behind(Without(short, i), Without(long, |long| - |short| + i), time, window)
  {
    var d := |long| - |short|;
    BehindIndex(short, long, now, window, time);
    assert long[d..][..i] == long[..d + i][d..];
    assert long[d..][i + 1..] == long[d + i + 1..];
    assert Without(long, d + i)[d..] == Without(short, i);
  }

  lemma BehindSuffix(short: seq<Decrease>, long: seq<Decrease>, now: nat, time: nat, window: nat, i: nat)
    requires Behind(short, long, now, window) && now <= time && i <= |short|
    requires forall k | 0 <= k < i :: short[k].time + window < time
    ensures Behind(short[i..], long, time, window)
  {
    BehindIndex(short, long, now, window, time);
  }

  lemma BehindAppend(short: seq<Decrease>, long: seq<Decrease>, now: nat, window: nat, x: Decrease)
    requires Behind(short, long, now, window)
    ensures Behind(short + [x], long + [x], now, window)
  {
  }

  /** The history of a level after a change of that level. */
  function NextQueue(q: seq<Decrease>, c: LevelChange, time: nat, window: nat): seq<Decrease> {
    if Rises(c) then
      var i := FirstUnexpired(q, time, window);
      if i < |q| then Without(q, i) else q
    else if KindOf(c) == Decreased then q + [Decrease(time, c.newQuantity)]
    else q
  }

  lemma ObservedQueue(s: LiquidityState, c: LevelChange, time: nat, window: nat, k: LevelKey)
    ensures Queue(Observed(s, c, time, window), k)
         == if k == KeyOf(c) then NextQueue(Queue(s, k), c, time, window) else Queue(s, k)
  {
  }

  lemma ObservedSighted(s: LiquidityState, c: LevelChange, now: nat, time: nat, window: nat, k: LevelKey)
    requires Sighted(s, k, now) && now <= time
    ensures Sighted(Observed(s, c, time, window), k, time)
  {
    ObservedQueue(s, c, time, window, k);
  }

  lemma NextQueueBehind(short: seq<Decrease>, long: seq<Decrease>, c: LevelChange, now: nat, time: nat, window: nat)
    requires Behind(short, long, now, window) && now <= time
    ensures Behind(NextQueue(short, c, time, window), NextQueue(long, c, time, window), time, window)
    ensures FirstUnexpired(short, time, window) < |short| <==> FirstUnexpired(long, time, window) < |long|
  {
    hide Behind, Without, FirstUnexpired;
    assert |short| <= |long| && Behind(short, long, time, window) by {
      BehindSuffix(short, long, now, time, window, 0);
    }
    BehindFindsSame(short, long, now, time, window);
    var i := FirstUnexpired(short, time, window);
    if Rises(c) {
      if i < |short| { BehindWithout(short, long, now, time, window, i); }
    } else {
      BehindAppend(short, long, time, window, Decrease(time, c.newQuantity));
    }
  }

  lemma ChangeAgrees(p: LiquidityState, u: LiquidityState, now: nat, c: LevelChange, time: nat, window: nat)
    requires Agree(p, u, now, window) && now <= time
    ensures Emitted(p, c, time, window) == Emitted(u, c, time, window)
    ensures Agree(Observed(p, c, time, window), Observed(u, c, time, window), time, window)
  {
    hide Behind, Sighted, FirstUnexpired, NextQueue, Queue;
    var p', u' := Observed(p, c, time, window), Observed(u, c, time, window);
    NextQueueBehind(Queue(p, KeyOf(c)), Queue(u, KeyOf(c)), c, now, time, window);
    forall k ensures Behind(Queue(p', k), Queue(u', k), time, window) && Sighted(p', k, time) {
      ObservedQueue(p, c, time, window, k);
      ObservedQueue(u, c, time, window, k);
      ObservedSighted(p, c, now, time, window, k);
      BehindLater(Queue(p, k), Queue(u, k), now, time, window);
    }
  }

  lemma BehindLater(short: seq<Decrease>, long: seq<Decrease>, now: nat, time: nat, window: nat)
    requires Behind(short, long, now, window) && now <= time
    ensures Behind(short, long, time, window)
  {
  }

  lemma SightedLater(s: LiquidityState, k: LevelKey, now: nat, time: nat)
    requires Sighted(s, k, now) && now <= time
    ensures Sighted(s, k, time)
  {
  }

  /** Deleting the history of a vanished level drops only decreases that no rise can use any more. */
  lemma PrunedQueue(s: LiquidityState, k: LevelKey, now: nat, time: nat, window: nat, retention: nat)
    requires Sighted(s, k, now) && now <= time && window <= retention
    ensures var q, after := Queue(s, k), Queue(Pruned(s, time, window, retention), k);
      exists i | 0 <= i <= |q| :: after == q[i..] && forall j | 0 <= j < i :: q[j].time + window < time
    ensures Sighted(Pruned(s, time, window, retention), k, time)
  {
    var q, gone := Queue(s, k), Vanished(s.levels, time, retention);
    if k in gone {
      assert Queue(Pruned(s, time, window, retention), k) == q[|q|..];
    } else if k in s.drops {
      assert Queue(Pruned(s, time, window, retention), k) == q[FirstUnexpired(q, time, window)..];
    } else {
      assert Queue(Pruned(s, time, window, retention), k) == q[0..];
    }
  }

  lemma PruneAgrees(p: LiquidityState, u: LiquidityState, now: nat, time: nat, window: nat, retention: nat)
    requires Agree(p, u, now, window) && now <= time && window <= retention
    ensures Agree(Pruned(p, time, window, retention), u, time, window)
  {
    hide Behind, Sighted, Queue;
    var p' := Pruned(p, time, window, retention);
    forall k ensures Behind(Queue(p', k), Queue(u, k), time, window) && Sighted(p', k, time) {
      PrunedQueue(p, k, now, time, window, retention);
      var q := Queue(p, k);
      var i :| 0 <= i <= |q| && Queue(p', k) == q[i..] && forall j | 0 <= j < i :: q[j].time + window < time;
      BehindSuffix(q, Queue(u, k), now, time, window, i);
    }
  }

  lemma SignalAgrees(p: LiquidityState, u: LiquidityState, now: nat, x: Signal, cfg: Settings)
    requires Agree(p, u, now, cfg.window) && now <= x.time && cfg.window <= cfg.retention
    ensures Out(p, x, cfg.(pruning := true)) == Out(u, x, cfg.(pruning := false))
    ensures Agree(Next(p, x, cfg.(pruning := true)), Next(u, x, cfg.(pruning := false)), x.time, cfg.window)
  {
    hide Behind, Sighted, Emitted, Observed, Pruned;
    match x {
      case Changed(time, c) => ChangeAgrees(p, u, now, c, time, cfg.window);
      case PruneDue(time) => PruneAgrees(p, u, now, time, cfg.window, cfg.retention);
      case _ => QuietAgrees(p, u, now, x, cfg);
    }
  }

  lemma QuietAgrees(p: LiquidityState, u: LiquidityState, now: nat, x: Signal, cfg: Settings)
    requires Agree(p, u, now, cfg.window) && now <= x.time && (x.IntervalEnded? || x.BookRebuilt?)
    ensures Agree(Next(p, x, cfg.(pruning := true)), Next(u, x, cfg.(pruning := false)), x.time, cfg.window)
  {
    forall k ensures Behind(Queue(p, k), Queue(u, k), x.time, cfg.window) && Sighted(p, k, x.time) {
      BehindLater(Queue(p, k), Queue(u, k), now, x.time, cfg.window);
      SightedLater(p, k, now, x.time);
    }
    var p', u' := Next(p, x, cfg.(pruning := true)), Next(u, x, cfg.(pruning := false));
    forall k ensures Behind(Queue(p', k), Queue(u', k), x.time, cfg.window) && Sighted(p', k, x.time) {
      assert x.IntervalEnded? ==> Queue(p', k) == Queue(p, k) && Queue(u', k) == Queue(u, k);
    }
  }

  ghost function Clock(signals: seq<Signal>, n: nat): nat
    requires n <= |signals|
  {
    if n == 0 then 0 else signals[n - 1].time
  }

  lemma {:induction false} PruningAgrees(s: LiquidityState, signals: seq<Signal>, cfg: Settings, n: nat)
    requires s.drops == map[] && TimesInOrder(signals) && cfg.window <= cfg.retention && n <= |signals|
    ensures var pruned, unpruned := cfg.(pruning := true), cfg.(pruning := false);
      && Agree(Tracked(s, signals, pruned, n), Tracked(s, signals, unpruned, n), Clock(signals, n), cfg.window)
      && Events(s, signals, pruned, n) == Events(s, signals, unpruned, n)
  {
    hide Agree, Next, Out;
    var pruned, unpruned := cfg.(pruning := true), cfg.(pruning := false);
    if n == 0 {
      StartAgrees(s, cfg.window);
    } else {
      PruningAgrees(s, signals, cfg, n - 1);
      SignalAgrees(Tracked(s, signals, pruned, n - 1), Tracked(s, signals, unpruned, n - 1),
                   Clock(signals, n - 1), signals[n - 1], cfg);
    }
  }

  lemma StartAgrees(s: LiquidityState, window: nat)
    requires s.drops == map[]
    ensures Agree(s, s, 0, window)
  {
  }

  /** With nondecreasing times and a retention of at least the window, a tracker that prunes emits
      exactly what one that never prunes emits, and counts the same. */
  lemma PruningUnobservable(s: LiquidityState, signals: seq<Signal>, cfg: Settings)
    requires s.drops == map[] && TimesInOrder(signals) && cfg.window <= cfg.retention
    ensures var pruned, unpruned := cfg.(pruning := true), cfg.(pruning := false);
      var p, u := Tracked(s, signals, pruned, |signals|), Tracked(s, signals, unpruned, |signals|);
      && Events(s, signals, pruned, |signals|) == Events(s, signals, unpruned, |signals|)
      && p.added == u.added && p.removed == u.removed && p.replenishments == u.replenishments
  {
    PruningAgrees(s, signals, cfg, |signals|);
  }

  /** A vanishing level whose history a shorter retention deletes too early. */
  function EarlyDeletion(retention: nat): seq<Signal> {
    [Changed(0, LevelChange(Bid, 0, Some(2), 1)), Changed(0, LevelChange(Bid, 0, Some(1), 0)),
     PruneDue(retention + 1), Changed(retention + 1, LevelChange(Bid, 0, None, 1))]
  }

  /** The bound on the retention is exact: with a shorter one, pruning is observable. */
  lemma ShorterRetentionIsObservable(cfg: Settings)
    requires cfg.window > cfg.retention
    ensures var signals := EarlyDeletion(cfg.retention);
      && TimesInOrder(signals)
      && Events(NoLiquidity, signals, cfg.(pruning := true), 4)
         != Events(NoLiquidity, signals, cfg.(pruning := false), 4)
  {
    hide Tracked, Out, Events, Queue;
    var signals, pruned, unpruned := EarlyDeletion(cfg.retention), cfg.(pruning := true), cfg.(pruning := false);
    FirstThree(pruned, signals);
    FirstThree(unpruned, signals);
    var p, u := Tracked(NoLiquidity, signals, pruned, 3), Tracked(NoLiquidity, signals, unpruned, 3);
    LastEvents(NoLiquidity, signals, pruned, 3);
    LastEvents(NoLiquidity, signals, unpruned, 3);
    OneMoreEvent(p, cfg.retention + 1, pruned);
    OneMoreEvent(u, cfg.retention + 1, unpruned);
  }

  lemma LastEvents(s: LiquidityState, signals: seq<Signal>, cfg: Settings, n: nat)
    requires n < |signals|
    ensures Events(s, signals, cfg, n + 1)
         == Events(s, signals, cfg, n) + Out(Tracked(s, signals, cfg, n), signals[n], cfg)
  {
  }

  lemma OneMoreEvent(s: LiquidityState, time: nat, cfg: Settings)
    requires Queue(s, LevelKey(Bid, 0)) == if cfg.pruning then [] else [Decrease(0, 1)]
    requires time <= cfg.window
    ensures |Out(s, Changed(time, LevelChange(Bid, 0, None, 1)), cfg)| == if cfg.pruning then 1 else 2
  {
  }

  lemma FirstThree(cfg: Settings, signals: seq<Signal>)
    requires signals == EarlyDeletion(cfg.retention)
    ensures var s, k := Tracked(NoLiquidity, signals, cfg, 3), LevelKey(Bid, 0);
      && Queue(s, k) == (if cfg.pruning then [] else [Decrease(0, 1)])
      && |Events(NoLiquidity, signals, cfg, 3)| == 2
  {
    var k := LevelKey(Bid, 0);
    var s1 := Tracked(NoLiquidity, signals, cfg, 1);
    assert s1 == Next(Tracked(NoLiquidity, signals, cfg, 0), signals[0], cfg);
    assert Queue(s1, k) == [Decrease(0, 1)] && k in s1.levels;
    var s2 := Tracked(NoLiquidity, signals, cfg, 2);
    assert s2 == Next(s1, signals[1], cfg);
    assert Queue(s2, k) == [Decrease(0, 1)];
    assert k in s2.levels && s2.levels[k].lastSeenAt == 0 && s2.levels[k].current == 0;
    assert k in Vanished(s2.levels, cfg.retention + 1, cfg.retention);
    assert Tracked(NoLiquidity, signals, cfg, 3) == Next(s2, signals[2], cfg);
    assert |Events(NoLiquidity, signals, cfg, 1)| == 1;
    assert |Events(NoLiquidity, signals, cfg, 2)| == 2;
  }

  /** What a signal means for one level. */
  function MarkOf(x: Signal, k: LevelKey): Mark {
    if !(x.Changed? && x.change.side == k.side && x.change.price == k.price) then Mark(Other, x.time)
    else if x.change.newQuantity > Was(x.change.oldQuantity) then Mark(Rise, x.time)
    else if 0 < x.change.newQuantity < Was(x.change.oldQuantity) then Mark(Fall, x.time)
    else Mark(Other, x.time)
  }

  function Marks(signals: seq<Signal>, k: LevelKey): (r: seq<Mark>)
    ensures |r| == |signals|
    ensures forall i | 0 <= i < |r| :: r[i] == MarkOf(signals[i], k)
  {
    seq(|signals|, i requires 0 <= i < |signals| => MarkOf(signals[i], k))
  }

  function ReplenishedAt(events: seq<LiquidityEvent>, k: LevelKey): nat {
    if events == [] then 0
    else
      ReplenishedAt(events[..|events| - 1], k)
      + if events[|events| - 1].Replenished? && events[|events| - 1].key == k then 1 else 0
  }

  lemma {:induction false} ReplenishedConcat(a: seq<LiquidityEvent>, b: seq<LiquidityEvent>, k: LevelKey)
    ensures ReplenishedAt(a + b, k) == ReplenishedAt(a, k) + ReplenishedAt(b, k)
    decreases |b|
  {
    if b == [] {
      assert a + b == a;
    } else {
      assert (a + b)[..|a + b| - 1] == a + b[..|b| - 1];
      ReplenishedConcat(a, b[..|b| - 1], k);
    }
  }

  /** The queue of the level holds the times of the free falls, oldest first. */
  ghost predicate Mirrors(q: seq<Decrease>, marks: seq<Mark>, free: seq<nat>) {
    && |q| == |free|
    && forall i | 0 <= i < |q| :: free[i] < |marks| && q[i].time == marks[free[i]].time
  }

  ghost predicate NoRebuild(signals: seq<Signal>) {
    forall i | 0 <= i < |signals| :: !signals[i].BookRebuilt?
  }

  lemma MirrorsFindsSame(q: seq<Decrease>, marks: seq<Mark>, free: seq<nat>, time: nat, window: nat)
    requires Mirrors(q, marks, free)
    ensures Oldest(marks, free, time, window) == FirstUnexpired(q, time, window)
  {
    FirstUnexpiredUnique(q, time, window, Oldest(marks, free, time, window));
  }

  lemma QueueMirrors(q: seq<Decrease>, marks: seq<Mark>, window: nat, n: nat, g: Greedy, x: Signal, k: LevelKey)
    requires n < |marks| && marks[n] == MarkOf(x, k) && Mirrors(q, marks, g.free)
    requires forall i | 0 <= i < |g.free| :: g.free[i] < n
    requires x.Changed? && KeyOf(x.change) == k
    ensures Mirrors(NextQueue(q, x.change, x.time, window), marks, GreedyStep(marks, window, n, g).free)
  {
    MirrorsFindsSame(q, marks, g.free, x.time, window);
  }

  ghost predicate Linked(s: LiquidityState, events: seq<LiquidityEvent>, k: LevelKey, marks: seq<Mark>, g: Greedy) {
    Mirrors(Queue(s, k), marks, g.free) && ReplenishedAt(events, k) == |g.pairs|
  }

  lemma EmittedCount(s: LiquidityState, c: LevelChange, time: nat, window: nat, k: LevelKey)
    ensures ReplenishedAt(Emitted(s, c, time, window), k)
         == if k == KeyOf(c) && Matches(s, c, time, window) then 1 else 0
  {
    var events := Emitted(s, c, time, window);
    if |events| == 2 {
      assert events == [events[0]] + [events[1]];
      ReplenishedConcat([events[0]], [events[1]], k);
    }
  }

  lemma SignalLinks(s: LiquidityState, events: seq<LiquidityEvent>, x: Signal, cfg: Settings, k: LevelKey,
                    marks: seq<Mark>, n: nat, g: Greedy)
    requires Linked(s, events, k, marks, g) && !x.BookRebuilt? && !cfg.pruning
    requires n < |marks| && marks[n] == MarkOf(x, k) && GreedySound(marks, cfg.window, n, g)
    requires forall i | 0 <= i < |g.free| :: g.free[i] < n
    ensures Linked(Next(s, x, cfg), events + Out(s, x, cfg), k, marks, GreedyStep(marks, cfg.window, n, g))
  {
    hide GreedySound, Emitted, Observed, NextQueue;
    ReplenishedConcat(events, Out(s, x, cfg), k);
    if x.Changed? {
      ObservedQueue(s, x.change, x.time, cfg.window, k);
      EmittedCount(s, x.change, x.time, cfg.window, k);
      if KeyOf(x.change) == k {
        QueueMirrors(Queue(s, k), marks, cfg.window, n, g, x, k);
        MirrorsFindsSame(Queue(s, k), marks, g.free, x.time, cfg.window);
        NewPair(marks, cfg.window, n, g);
      }
    }
  }

  lemma NewPair(marks: seq<Mark>, window: nat, n: nat, g: Greedy)
    requires n < |marks| && GreedySound(marks, window, n, g)
    requires forall i | 0 <= i < |g.free| :: g.free[i] < n
    ensures |GreedyStep(marks, window, n, g).pairs| == |g.pairs|
              + if marks[n].direction == Rise && Oldest(marks, g.free, marks[n].time, window) < |g.free| then 1 else 0
  {
    if marks[n].direction == Rise && Oldest(marks, g.free, marks[n].time, window) < |g.free| {
      FreshPair(g.pairs, g.free[Oldest(marks, g.free, marks[n].time, window)], n);
    }
  }

  lemma {:induction false} TrackerLinks(s: LiquidityState, signals: seq<Signal>, cfg: Settings, k: LevelKey, n: nat)
    requires s.drops == map[] && NoRebuild(signals) && !cfg.pruning && n <= |signals|
    ensures Linked(Tracked(s, signals, cfg, n), Events(s, signals, cfg, n), k, Marks(signals, k),
                   GreedyRun(Marks(signals, k), cfg.window, n))
  {
    hide Linked, Next, Out, GreedySound, GreedyStep;
    var marks := Marks(signals, k);
    if n == 0 {
      StartLinks(s, k, marks);
    } else {
      TrackerLinks(s, signals, cfg, k, n - 1);
      GreedyIsSound(marks, cfg.window, n - 1);
      RunStep(marks, cfg.window, n - 1);
      SignalLinks(Tracked(s, signals, cfg, n - 1), Events(s, signals, cfg, n - 1), signals[n - 1], cfg, k, marks,
                  n - 1, GreedyRun(marks, cfg.window, n - 1));
    }
  }

  lemma StartLinks(s: LiquidityState, k: LevelKey, marks: seq<Mark>)
    requires s.drops == map[]
    ensures Linked(s, [], k, marks, Greedy([], {}))
  {
  }

  /** Between two clears, with nondecreasing times and a retention of at least the window, the
      replenishments emitted at a level are as many as the largest set of disjoint pairs of a
      recorded decrease and a later rise inside the window. */
  lemma ReplenishmentIsMaximum(s: LiquidityState, signals: seq<Signal>, cfg: Settings, k: LevelKey)
    requires s.drops == map[] && NoRebuild(signals) && TimesInOrder(signals) && cfg.window <= cfg.retention
    ensures var count := ReplenishedAt(Events(s, signals, cfg, |signals|), k);
      && (exists m: Pairing :: IsPairing(Marks(signals, k), cfg.window, m) && |m| == count)
      && (forall m: Pairing | IsPairing(Marks(signals, k), cfg.window, m) :: |m| <= count)
  {
    hide IsPairing;
    var n, unpruned := |signals|, cfg.(pruning := false);
    PruningUnobservable(s, signals, cfg);
    assert cfg == cfg.(pruning := true) || cfg == unpruned;
    TrackerLinks(s, signals, unpruned, k, n);
    GreedyIsMaximum(Marks(signals, k), cfg.window);
  }
}
