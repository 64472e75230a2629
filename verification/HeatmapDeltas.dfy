/** Frame differences computed by the engine (src/analytics/heatmap.rs) and applied by the browser
    store (frontend/src/state/store.ts). */
module HeatmapDeltas {
  import opened Arithmetic
  import opened Options
  import opened Ordering
  import opened Sums

  datatype CellSnapshot = CellSnapshot(
    priceTick: nat,
    restingBid: nat,
    restingAsk: nat,
    added: nat,
    removed: nat,
    buy: nat,
    sell: nat,
    delta: int,
    trades: nat,
    largeVolume: nat,
    replenishments: nat,
    absorptions: nat,
    sweeps: nat,
    pressure: int)

  /** The ten counters that a delta carries. */
  datatype Counters = Counters(
    buy: nat,
    sell: nat,
    delta: int,
    trades: nat,
    added: nat,
    removed: nat,
    largeVolume: nat,
    replenishments: nat,
    absorptions: nat,
    sweeps: nat)

  datatype Summary = Summary(priceLevels: nat, buckets: nat, counters: Counters)

  datatype Frame = Frame(
    timestamp: nat,
    visible: (nat, nat),
    timeRange: (nat, nat),
    cells: seq<CellSnapshot>,
    summary: Summary)

  type Keyed = (nat, CellSnapshot)
  type CellMap = map<nat, CellSnapshot>

  datatype Delta = Delta(changed: seq<Keyed>, created: seq<CellSnapshot>, removed: seq<nat>, counters: Counters)

  /** Cells with their prices. */
  function ByPrice(cells: seq<CellSnapshot>): (r: seq<Keyed>)
    ensures |r| == |cells|
    ensures forall i | 0 <= i < |r| :: r[i] == (cells[i].priceTick, cells[i])
  {
    seq(|cells|, i requires 0 <= i < |cells| => (cells[i].priceTick, cells[i]))
  }

  /** Writing entries one after the other: the last one of a key stays. */
  function Written(m: CellMap, entries: seq<Keyed>): CellMap {
    if entries == [] then m
    else
      var last := entries[|entries| - 1];
      Written(m, entries[..|entries| - 1])[last.0 := last.1]
  }

  /** The map that a list of cells stands for. */
  function CellsOf(cells: seq<CellSnapshot>): CellMap {
    Written(map[], ByPrice(cells))
  }

  function ChangedKeys(p: CellMap, c: CellMap): set<nat> {
    set k | k in c && k in p && p[k] != c[k]
  }

  function CreatedKeys(p: CellMap, c: CellMap): set<nat> {
    c.Keys - p.Keys
  }

  function RemovedKeys(p: CellMap, c: CellMap): set<nat> {
    p.Keys - c.Keys
  }

  function Paired(m: CellMap, keys: seq<nat>): (r: seq<Keyed>)
    requires forall k | k in keys :: k in m
    ensures |r| == |keys|
    ensures forall i | 0 <= i < |r| :: r[i] == (keys[i], m[keys[i]])
  {
    seq(|keys|, i requires 0 <= i < |keys| => (keys[i], m[keys[i]]))
  }

  function ValuesAt(m: CellMap, keys: seq<nat>): (r: seq<CellSnapshot>)
    requires forall k | k in keys :: k in m
    ensures |r| == |keys|
    ensures forall i | 0 <= i < |r| :: r[i] == m[keys[i]]
  {
    seq(|keys|, i requires 0 <= i < |keys| => m[keys[i]])
  }

  function CounterDelta(p: Counters, c: Counters): Counters {
    Counters(Saturating(c.buy, p.buy), Saturating(c.sell, p.sell), c.delta - p.delta, Saturating(c.trades, p.trades),
             Saturating(c.added, p.added), Saturating(c.removed, p.removed), Saturating(c.largeVolume, p.largeVolume),
             Saturating(c.replenishments, p.replenishments), Saturating(c.absorptions, p.absorptions),
             Saturating(c.sweeps, p.sweeps))
  }

  function DeltaOf(previous: Frame, current: Frame): Delta {
    var p, c := CellsOf(previous.cells), CellsOf(current.cells);
    Delta(Paired(c, Ascending(ChangedKeys(p, c))), ValuesAt(c, Ascending(CreatedKeys(p, c))),
          Ascending(RemovedKeys(p, c)), CounterDelta(previous.summary.counters, current.summary.counters))
  }

  /** Two ordered passes over the two maps. */
  method Compute(previous: Frame, current: Frame) returns (d: Delta)
    ensures d == DeltaOf(previous, current)
  {
    var p, c := CellsOf(previous.cells), CellsOf(current.cells);
    var changed, created := Compared(p, c);
    var removed := Missing(p, c);
    d := Delta(changed, created, removed, CounterDelta(previous.summary.counters, current.summary.counters));
  }

  ghost predicate Filters(out: seq<nat>, all: seq<nat>, keep: set<nat>) {
    StrictlyAscending(out) && forall k :: k in out <==> k in all && k in keep
  }

  lemma FilterStep(out: seq<nat>, all: seq<nat>, i: nat, keep: set<nat>)
    requires StrictlyAscending(all) && i < |all| && Filters(out, all[..i], keep)
    ensures Filters(if all[i] in keep then out + [all[i]] else out, all[..i + 1], keep)
  {
    assert all[..i + 1] == all[..i] + [all[i]];
    forall j | 0 <= j < |out| ensures out[j] < all[i] {
      assert out[j] in all[..i];
    }
  }

  lemma PairedAppend(c: CellMap, keys: seq<nat>)
    requires forall k | k in keys :: k in c
    ensures keys == [] ==> Paired(c, keys) == [] && ValuesAt(c, keys) == []
    ensures forall k | k in c ::
              && Paired(c, keys + [k]) == Paired(c, keys) + [(k, c[k])]
              && ValuesAt(c, keys + [k]) == ValuesAt(c, keys) + [c[k]]
  {
  }

  method Compared(p: CellMap, c: CellMap) returns (changed: seq<Keyed>, created: seq<CellSnapshot>)
    ensures changed == Paired(c, Ascending(ChangedKeys(p, c)))
    ensures created == ValuesAt(c, Ascending(CreatedKeys(p, c)))
  {
    hide Filters, Paired, ValuesAt;
    PairedAppend(c, []);
    changed, created := [], [];
    var prices := Ascending(c.Keys);
    ghost var changedKeys: seq<nat>, createdKeys: seq<nat> := [], [];
    NothingFiltered(prices, ChangedKeys(p, c));
    NothingFiltered(prices, CreatedKeys(p, c));
    for i := 0 to |prices|
      invariant Filters(changedKeys, prices[..i], ChangedKeys(p, c))
      invariant Filters(createdKeys, prices[..i], CreatedKeys(p, c))
      invariant forall k | k in changedKeys || k in createdKeys :: k in c
      invariant changed == Paired(c, changedKeys) && created == ValuesAt(c, createdKeys)
    {
      FilterStep(changedKeys, prices, i, ChangedKeys(p, c));
      FilterStep(createdKeys, prices, i, CreatedKeys(p, c));
      var price := prices[i];
      assert price in c;
      if price in p {
        if p[price] != c[price] {
          PairedAppend(c, changedKeys);
          changed := changed + [(price, c[price])];
          changedKeys := changedKeys + [price];
        }
      } else {
        PairedAppend(c, createdKeys);
        created := created + [c[price]];
        createdKeys := createdKeys + [price];
      }
    }
    AllFiltered(changedKeys, prices, ChangedKeys(p, c));
    AllFiltered(createdKeys, prices, CreatedKeys(p, c));
  }

  method Missing(p: CellMap, c: CellMap) returns (removed: seq<nat>)
    ensures removed == Ascending(RemovedKeys(p, c))
  {
    hide Filters;
    removed := [];
    var prices := Ascending(p.Keys);
    NothingFiltered(prices, RemovedKeys(p, c));
    for i := 0 to |prices|
      invariant Filters(removed, prices[..i], RemovedKeys(p, c))
    {
      FilterStep(removed, prices, i, RemovedKeys(p, c));
      assert prices[i] in p;
      if prices[i] !in c { removed := removed + [prices[i]]; }
    }
    AllFiltered(removed, prices, RemovedKeys(p, c));
  }

  lemma NothingFiltered(all: seq<nat>, keep: set<nat>)
    ensures Filters([], all[..0], keep)
  {
  }

  lemma AllFiltered(out: seq<nat>, all: seq<nat>, keep: set<nat>)
    requires Filters(out, all[..|all|], keep) && forall k | k in keep :: k in all
    ensures out == Ascending(keep)
  {
    assert all[..|all|] == all;
    AscendingUnique(out, Ascending(keep));
  }

  /** The browser's `Map`: entries in insertion order. Writing a present key keeps its place. */
  function Put(entries: seq<Keyed>, k: nat, v: CellSnapshot): seq<Keyed> {
    if entries == [] then [(k, v)]
    else if entries[0].0 == k then [(k, v)] + entries[1..]
    else [entries[0]] + Put(entries[1..], k, v)
  }

  function Dropped(entries: seq<Keyed>, k: nat): seq<Keyed> {
    if entries == [] then []
    else if entries[0].0 == k then entries[1..]
    else [entries[0]] + Dropped(entries[1..], k)
  }

  function PutAll(entries: seq<Keyed>, more: seq<Keyed>): seq<Keyed> {
    if more == [] then entries
    else
      var last := more[|more| - 1];
      Put(PutAll(entries, more[..|more| - 1]), last.0, last.1)
  }

  function DropAll(entries: seq<Keyed>, keys: seq<nat>): seq<Keyed> {
    if keys == [] then entries else Dropped(DropAll(entries, keys[..|keys| - 1]), keys[|keys| - 1])
  }

  function ValuesOf(entries: seq<Keyed>): (r: seq<CellSnapshot>)
    ensures |r| == |entries|
    ensures forall i | 0 <= i < |r| :: r[i] == entries[i].1
  {
    seq(|entries|, i requires 0 <= i < |entries| => entries[i].1)
  }

  predicate CheaperFirst(a: CellSnapshot, b: CellSnapshot) {
    a.priceTick <= b.priceTick
  }

  function CountersAdded(s: Counters, d: Counters): Counters {
    Counters(s.buy + d.buy, s.sell + d.sell, s.delta + d.delta, s.trades + d.trades, s.added + d.added,
             s.removed + d.removed, s.largeVolume + d.largeVolume, s.replenishments + d.replenishments,
             s.absorptions + d.absorptions, s.sweeps + d.sweeps)
  }

  function PatchedEntries(cells: seq<CellSnapshot>, d: Delta): seq<Keyed> {
    DropAll(PutAll(PutAll(PutAll([], ByPrice(cells)), d.changed), ByPrice(d.created)), d.removed)
  }

  /** Everything but cells and counters stays as it was in the patched frame. */
  function Patched(f: Frame, d: Delta): Frame {
    f.(cells := SortedBy(ValuesOf(PatchedEntries(f.cells, d)), CheaperFirst),
    summary := f.summary.(counters := CountersAdded(f.summary.counters, d.counters)))
  }

  class Store {
    var frame: Option<Frame>

    constructor ()
      ensures frame == None
    {
      frame := None;
    }

    method ReceiveDelta(d: Delta)
      modifies this
      ensures frame == if old(frame).None? then None else Some(Patched(old(frame).value, d))
    {
      if frame.None? { return; }
      var cellMap := PutAll([], ByPrice(frame.value.cells));
      cellMap := PutEach(cellMap, d.changed);
      cellMap := PutEach(cellMap, ByPrice(d.created));
      cellMap := DropEach(cellMap, d.removed);
      var cells := SortedBy(ValuesOf(cellMap), CheaperFirst);
      var counters := CountersAdded(frame.value.summary.counters, d.counters);
      frame := Some(frame.value.(cells := cells, summary := frame.value.summary.(counters := counters)));
    }

    method PutEach(entries: seq<Keyed>, more: seq<Keyed>) returns (r: seq<Keyed>)
      ensures r == PutAll(entries, more)
    {
      r := entries;
      for i := 0 to |more|
        invariant r == PutAll(entries, more[..i])
      {
        assert more[..i + 1][..i] == more[..i];
        r := Put(r, more[i].0, more[i].1);
      }
      assert more[..|more|] == more;
    }

    method DropEach(entries: seq<Keyed>, keys: seq<nat>) returns (r: seq<Keyed>)
      ensures r == DropAll(entries, keys)
    {
      r := entries;
      for i := 0 to |keys|
        invariant r == DropAll(entries, keys[..i])
      {
        assert keys[..i + 1][..i] == keys[..i];
        r := Dropped(r, keys[i]);
      }
      assert keys[..|keys|] == keys;
    }
  }

  /** Entries with distinct keys stand for a map. */
  ghost predicate Distinct(entries: seq<Keyed>) {
    forall i, j | 0 <= i < j < |entries| :: entries[i].0 != entries[j].0
  }

  ghost predicate Represents(entries: seq<Keyed>, m: CellMap) {
    && Distinct(entries)
    && (forall e | e in entries :: e.0 in m && m[e.0] == e.1)
    && (forall k | k in m :: (k, m[k]) in entries)
  }

  lemma {:induction false} PutRepresents(entries: seq<Keyed>, m: CellMap, k: nat, v: CellSnapshot)
    requires Represents(entries, m)
    ensures Represents(Put(entries, k, v), m[k := v])
  {
    hide Represents;
    if entries == [] {
      EmptyRepresents();
      OnlyEmpty(m);
      HeadRepresents((k, v), [], m);
      assert [(k, v)] + [] == [(k, v)];
    } else {
      var head, tail := entries[0], entries[1..];
      TailRepresents(entries, m);
      if head.0 != k {
        PutRepresents(tail, m - {head.0}, k, v);
        HeadRepresents(head, Put(tail, k, v), (m - {head.0})[k := v]);
        assert (m - {head.0})[k := v][head.0 := head.1] == m[k := v];
      } else {
        HeadRepresents((k, v), tail, m - {k});
        assert (m - {k})[k := v] == m[k := v];
      }
    }
  }

  lemma TailRepresents(entries: seq<Keyed>, m: CellMap)
    requires Represents(entries, m) && entries != []
    ensures Represents(entries[1..], m - {entries[0].0}) && entries[0].0 in m && m[entries[0].0] == entries[0].1
  {
    assert entries == [entries[0]] + entries[1..];
    assert entries[0] in entries;
    forall e | e in entries[1..] ensures e.0 in m && m[e.0] == e.1 && e.0 != entries[0].0 {
      assert e in entries;
    }
  }

  lemma HeadRepresents(head: Keyed, tail: seq<Keyed>, m: CellMap)
    requires Represents(tail, m) && head.0 !in m
    ensures Represents([head] + tail, m[head.0 := head.1])
  {
    var entries := [head] + tail;
    forall j | 0 <= j < |tail| ensures tail[j].0 != head.0 {
      assert tail[j] in tail;
    }
    assert entries[0] == head;
    forall k | k in m ensures (k, m[k]) in entries {
      assert (k, m[k]) in tail;
    }
  }

  lemma {:induction false} DroppedRepresents(entries: seq<Keyed>, m: CellMap, k: nat)
    requires Represents(entries, m)
    ensures Represents(Dropped(entries, k), m - {k})
  {
    if entries != [] {
      var head, tail := entries[0], entries[1..];
      TailRepresents(entries, m);
      if head.0 != k {
        DroppedRepresents(tail, m - {head.0}, k);
        HeadRepresents(head, Dropped(tail, k), m - {head.0} - {k});
        assert (m - {head.0} - {k})[head.0 := head.1] == m - {k};
      }
    } else {
      assert m == map[];
    }
  }

  lemma {:induction false} PutAllRepresents(entries: seq<Keyed>, m: CellMap, more: seq<Keyed>)
    requires Represents(entries, m)
    ensures Represents(PutAll(entries, more), Written(m, more))
    decreases |more|
  {
    hide Represents;
    if more != [] {
      var last := more[|more| - 1];
      PutAllRepresents(entries, m, more[..|more| - 1]);
      PutRepresents(PutAll(entries, more[..|more| - 1]), Written(m, more[..|more| - 1]), last.0, last.1);
    }
  }

  lemma {:induction false} DropAllRepresents(entries: seq<Keyed>, m: CellMap, keys: seq<nat>)
    requires Represents(entries, m)
    ensures Represents(DropAll(entries, keys), m - Members(keys))
    decreases |keys|
  {
    if keys == [] {
      assert m - Members([]) == m;
    } else {
      var front, k := keys[..|keys| - 1], keys[|keys| - 1];
      assert keys == front + [k];
      DropAllRepresents(entries, m, front);
      DroppedRepresents(DropAll(entries, front), m - Members(front), k);
      assert m - Members(front) - {k} == m - Members(keys);
    }
  }

  function KeysOf(entries: seq<Keyed>): set<nat> {
    set e | e in entries :: e.0
  }

  /** Writing entries taken from a map. */
  lemma {:induction false} WrittenFrom(m: CellMap, c: CellMap, entries: seq<Keyed>)
    requires forall e | e in entries :: e.0 in c && c[e.0] == e.1
    ensures Written(m, entries).Keys == m.Keys + KeysOf(entries)
    ensures forall k | k in Written(m, entries) ::
              if k in KeysOf(entries) then k in c && Written(m, entries)[k] == c[k]
              else k in m && Written(m, entries)[k] == m[k]
    decreases |entries|
  {
    if entries != [] {
      var front, last := entries[..|entries| - 1], entries[|entries| - 1];
      assert entries == front + [last];
      WrittenFrom(m, c, front);
      assert KeysOf(entries) == KeysOf(front) + {last.0};
    }
  }

  /** A cell is stored under its own price. */
  ghost predicate SelfKeyed(m: CellMap) {
    forall k | k in m :: m[k].priceTick == k
  }

  lemma LastCell(front: seq<CellSnapshot>, last: CellSnapshot)
    ensures CellsOf(front + [last]) == CellsOf(front)[last.priceTick := last]
  {
    assert ByPrice(front + [last])[..|front|] == ByPrice(front);
  }

  lemma {:induction false} CellsAreSelfKeyed(cells: seq<CellSnapshot>)
    ensures SelfKeyed(CellsOf(cells))
  {
    if cells != [] {
      var front, last := cells[..|cells| - 1], cells[|cells| - 1];
      assert cells == front + [last];
      LastCell(front, last);
      CellsAreSelfKeyed(front);
    }
  }

  lemma PairedKeys(c: CellMap, keys: seq<nat>)
    requires forall k | k in keys :: k in c
    ensures KeysOf(Paired(c, keys)) == Members(keys)
    ensures forall e | e in Paired(c, keys) :: e.0 in c && c[e.0] == e.1
  {
    forall k | k in keys ensures k in KeysOf(Paired(c, keys)) {
      var i :| 0 <= i < |keys| && keys[i] == k;
      assert Paired(c, keys)[i] in Paired(c, keys);
    }
  }

  lemma ValuesArePaired(c: CellMap, keys: seq<nat>)
    requires SelfKeyed(c) && forall k | k in keys :: k in c
    ensures ByPrice(ValuesAt(c, keys)) == Paired(c, keys)
  {
  }

  lemma MembersAscending(s: set<nat>)
    ensures Members(Ascending(s)) == s
  {
  }

  lemma ChangesInside(p: CellMap, c: CellMap)
    ensures ChangedKeys(p, c) <= c.Keys && CreatedKeys(p, c) <= c.Keys
  {
  }

  /** The map after the changes, the creations and the removals is the current one. */
  lemma EntriesBecomeCurrent(p: CellMap, c: CellMap)
    requires SelfKeyed(c)
    ensures var changed, created :=
        Paired(c, Ascending(ChangedKeys(p, c))), ByPrice(ValuesAt(c, Ascending(CreatedKeys(p, c))));
      Written(Written(p, changed), created) - Members(Ascending(RemovedKeys(p, c))) == c
  {
    hide Written, Members, Ascending, ChangedKeys, CreatedKeys, RemovedKeys, SelfKeyed, KeysOf;
    ChangesInside(p, c);
    var changed := Paired(c, Ascending(ChangedKeys(p, c)));
    var created := ByPrice(ValuesAt(c, Ascending(CreatedKeys(p, c))));
    PairedKeys(c, Ascending(ChangedKeys(p, c)));
    PairedKeys(c, Ascending(CreatedKeys(p, c)));
    ValuesArePaired(c, Ascending(CreatedKeys(p, c)));
    MembersAscending(ChangedKeys(p, c));
    MembersAscending(CreatedKeys(p, c));
    MembersAscending(RemovedKeys(p, c));
    WrittenFrom(p, c, changed);
    WrittenFrom(Written(p, changed), c, created);
    MergeIsCurrent(p, c, Written(p, changed), Written(Written(p, changed), created));
  }

  lemma MergeIsCurrent(p: CellMap, c: CellMap, m: CellMap, n: CellMap)
    requires m.Keys == p.Keys + ChangedKeys(p, c) && n.Keys == m.Keys + CreatedKeys(p, c)
    requires forall k | k in m :: if k in ChangedKeys(p, c) then k in c && m[k] == c[k] else k in p && m[k] == p[k]
    requires forall k | k in n :: if k in CreatedKeys(p, c) then k in c && n[k] == c[k] else k in m && n[k] == m[k]
    ensures n - RemovedKeys(p, c) == c
  {
    var r := n - RemovedKeys(p, c);
    assert r.Keys == c.Keys;
    forall k | k in c ensures r[k] == c[k] {
      assert k in n;
    }
  }

  /** Prices strictly ascend. */
  ghost predicate StrictlyOrdered(cells: seq<CellSnapshot>) {
    forall i, j | 0 <= i < j < |cells| :: cells[i].priceTick < cells[j].priceTick
  }

  lemma {:induction false} InsertedOrdered(x: CellSnapshot, s: seq<CellSnapshot>)
    requires StrictlyOrdered(s) && forall i | 0 <= i < |s| :: s[i].priceTick != x.priceTick
    ensures StrictlyOrdered(Inserted(x, s, CheaperFirst))
  {
    if s != [] && s[0].priceTick < x.priceTick {
      var rest := Inserted(x, s[1..], CheaperFirst);
      InsertedOrdered(x, s[1..]);
      forall i | 0 <= i < |rest| ensures s[0].priceTick < rest[i].priceTick {
        assert rest[i] in multiset(rest);
        assert rest[i] == x || rest[i] in s[1..];
      }
    }
  }

  lemma {:induction false} SortedOrdered(s: seq<CellSnapshot>)
    requires forall i, j | 0 <= i < j < |s| :: s[i].priceTick != s[j].priceTick
    ensures StrictlyOrdered(SortedBy(s, CheaperFirst))
  {
    if s != [] {
      var rest := SortedBy(s[1..], CheaperFirst);
      SortedOrdered(s[1..]);
      forall i | 0 <= i < |rest| ensures rest[i].priceTick != s[0].priceTick {
        assert rest[i] in multiset(rest);
        assert rest[i] in s[1..];
      }
      InsertedOrdered(s[0], rest);
    }
  }

  /** A strictly ordered list of the cells of a map stands for that map. */
  lemma {:induction false} OrderedStandsFor(cells: seq<CellSnapshot>, m: CellMap)
    requires StrictlyOrdered(cells) && SelfKeyed(m)
    requires forall x :: x in cells <==> x.priceTick in m && m[x.priceTick] == x
    ensures CellsOf(cells) == m
    decreases |cells|
  {
    hide CellsOf, SelfKeyed;
    if cells == [] {
      NoCells(m);
    } else {
      var front, last := cells[..|cells| - 1], cells[|cells| - 1];
      assert cells == front + [last] && last in cells;
      assert SelfKeyed(m - {last.priceTick}) && StrictlyOrdered(front) by { FrontKeyed(m, last.priceTick); }
      FrontCells(cells, front, last, m);
      OrderedStandsFor(front, m - {last.priceTick});
      LastCell(front, last);
      assert (m - {last.priceTick})[last.priceTick := last] == m;
    }
  }

  lemma FrontKeyed(m: CellMap, k: nat)
    requires SelfKeyed(m)
    ensures SelfKeyed(m - {k})
  {
  }

  lemma NoCells(m: CellMap)
    requires SelfKeyed(m) && forall x: CellSnapshot :: !(x.priceTick in m && m[x.priceTick] == x)
    ensures CellsOf([]) == m
  {
    assert forall k | k in m :: m[k].priceTick in m && m[m[k].priceTick] == m[k];
    assert m == map[];
  }

  lemma FrontCells(cells: seq<CellSnapshot>, front: seq<CellSnapshot>, last: CellSnapshot, m: CellMap)
    requires StrictlyOrdered(cells) && cells == front + [last]
    requires forall x :: x in cells <==> x.priceTick in m && m[x.priceTick] == x
    ensures forall x :: x in front <==> x.priceTick in m - {last.priceTick} && (m - {last.priceTick})[x.priceTick] == x
  {
    forall x ensures x in front <==> x.priceTick in m - {last.priceTick} && (m - {last.priceTick})[x.priceTick] == x {
      assert x in cells <==> x in front || x == last;
      if x in front {
        var i :| 0 <= i < |front| && front[i] == x;
        assert cells[i] == x && cells[|front|] == last;
      }
    }
  }

  lemma SortedEntries(entries: seq<Keyed>, m: CellMap)
    requires Represents(entries, m) && SelfKeyed(m)
    ensures StrictlyOrdered(SortedBy(ValuesOf(entries), CheaperFirst))
    ensures CellsOf(SortedBy(ValuesOf(entries), CheaperFirst)) == m
  {
    var values := ValuesOf(entries);
    forall i | 0 <= i < |entries| ensures values[i].priceTick == entries[i].0 && m[entries[i].0] == values[i] {
      assert entries[i] in entries;
    }
    SortedOrdered(values);
    var sorted := SortedBy(values, CheaperFirst);
    forall x ensures x in sorted <==> x.priceTick in m && m[x.priceTick] == x {
      assert x in sorted <==> x in multiset(sorted);
      assert x in values <==> x in multiset(values);
      if x.priceTick in m && m[x.priceTick] == x {
        assert (x.priceTick, x) in entries;
        var i :| 0 <= i < |entries| && entries[i] == (x.priceTick, x);
        assert values[i] == x;
      }
    }
    OrderedStandsFor(sorted, m);
  }

  /** Patching the previous frame, or any frame with the same cell map, with the difference to the
      current one gives the current map, one cell a price, prices strictly ascending. */
  lemma PatchRestoresCells(base: Frame, previous: Frame, current: Frame)
    requires CellsOf(base.cells) == CellsOf(previous.cells)
    ensures var r := Patched(base, DeltaOf(previous, current));
      CellsOf(r.cells) == CellsOf(current.cells) && StrictlyOrdered(r.cells)
  {
    hide Represents, PutAll, DropAll, Written, Members, SortedBy;
    var p, c, d := CellsOf(previous.cells), CellsOf(current.cells), DeltaOf(previous, current);
    var start := PutAll([], ByPrice(base.cells));
    assert Represents([], map[]) by { EmptyRepresents(); }
    PutAllRepresents([], map[], ByPrice(base.cells));
    PutAllRepresents(start, p, d.changed);
    PutAllRepresents(PutAll(start, d.changed), Written(p, d.changed), ByPrice(d.created));
    var all := PutAll(PutAll(start, d.changed), ByPrice(d.created));
    DropAllRepresents(all, Written(Written(p, d.changed), ByPrice(d.created)), d.removed);
    CellsAreSelfKeyed(current.cells);
    EntriesBecomeCurrent(p, c);
    SortedEntries(PatchedEntries(base.cells, d), c);
  }

  lemma EmptyRepresents()
    ensures Represents([], map[])
  {
  }

  lemma OnlyEmpty(m: CellMap)
    requires Represents([], m)
    ensures m == map[]
  {
  }

  /** Patch with the differences between neighbours, first to last. */
  function PatchedThrough(base: Frame, frames: seq<Frame>): Frame
    requires frames != []
  {
    if |frames| == 1 then base
    else
      Patched(PatchedThrough(base, frames[..|frames| - 1]), DeltaOf(frames[|frames| - 2], frames[|frames| - 1]))
  }

  /** A browser that starts from the first frame and receives every difference has the cells and the
      total delta of the last frame. */
  lemma {:induction false} DeltasReachLastFrame(frames: seq<Frame>)
    requires frames != []
    ensures var r := PatchedThrough(frames[0], frames);
      && CellsOf(r.cells) == CellsOf(frames[|frames| - 1].cells)
      && (|frames| > 1 ==> StrictlyOrdered(r.cells))
      && r.summary.counters.delta == frames[|frames| - 1].summary.counters.delta
    decreases |frames|
  {
    hide Patched, CellsOf, DeltaOf, StrictlyOrdered;
    if |frames| > 1 {
      var before := frames[..|frames| - 1];
      DeltasReachLastFrame(before);
      var base, previous, current := PatchedThrough(frames[0], before), frames[|frames| - 2], frames[|frames| - 1];
      PatchRestoresCells(base, previous, current);
      PatchedDelta(base, previous, current);
    }
  }

  lemma PatchedDelta(base: Frame, previous: Frame, current: Frame)
    ensures Patched(base, DeltaOf(previous, current)).summary.counters.delta
         == base.summary.counters.delta + current.summary.counters.delta - previous.summary.counters.delta
  {
  }

  /** The counters of a patched frame never fall: each is the larger of the two. */
  lemma PatchedCountersAreMaxima(previous: Frame, current: Frame)
    ensures var p, c := previous.summary.counters, current.summary.counters;
      Patched(previous, DeltaOf(previous, current)).summary.counters
      == Counters(Larger(p.buy, c.buy), Larger(p.sell, c.sell), c.delta, Larger(p.trades, c.trades),
                  Larger(p.added, c.added), Larger(p.removed, c.removed), Larger(p.largeVolume, c.largeVolume),
                  Larger(p.replenishments, c.replenishments), Larger(p.absorptions, c.absorptions),
                  Larger(p.sweeps, c.sweeps))
  {
    hide Patched, DeltaOf;
    PatchedCounters(previous, previous, current);
  }

  /** No counter falls. */
  predicate NoCounterFalls(p: Counters, c: Counters) {
    && p.buy <= c.buy && p.sell <= c.sell && p.trades <= c.trades && p.added <= c.added && p.removed <= c.removed
    && p.largeVolume <= c.largeVolume && p.replenishments <= c.replenishments && p.absorptions <= c.absorptions
    && p.sweeps <= c.sweeps
  }

  lemma CountersExact(base: Counters, p: Counters, c: Counters)
    requires NoCounterFalls(p, base)
    ensures NoCounterFalls(c, CountersAdded(base, CounterDelta(p, c)))
    ensures base.delta == p.delta ==>
      (CountersAdded(base, CounterDelta(p, c)) == c <==> base == p && NoCounterFalls(p, c))
  {
  }

  ghost predicate NoneFalls(frames: seq<Frame>) {
    forall i, j | 0 <= i < |frames| && 0 <= j < |frames| && j == i + 1 ::
      NoCounterFalls(frames[i].summary.counters, frames[j].summary.counters)
  }

  lemma NoneFallsSplits(frames: seq<Frame>)
    requires |frames| > 1
    ensures NoneFalls(frames) <==>
      NoneFalls(frames[..|frames| - 1])
      && NoCounterFalls(frames[|frames| - 2].summary.counters, frames[|frames| - 1].summary.counters)
  {
    hide NoCounterFalls;
    var n, before := |frames|, frames[..|frames| - 1];
    assert forall i | 0 <= i < n - 1 :: before[i] == frames[i];
    if NoneFalls(frames) {
      assert NoCounterFalls(frames[n - 2].summary.counters, frames[n - 1].summary.counters);
    }
  }

  /** After any number of patches the counters are those of the last frame if and only if no counter
      fell from one frame to the next; pruning makes them fall, and then they stay too large. */
  lemma {:induction false} CountersReachLastFrame(frames: seq<Frame>)
    requires frames != []
    ensures var r, last := PatchedThrough(frames[0], frames).summary.counters, frames[|frames| - 1].summary.counters;
      && NoCounterFalls(last, r)
      && (r == last <==> NoneFalls(frames))
    decreases |frames|
  {
    hide CountersAdded, CounterDelta, NoneFalls, NoCounterFalls, CellsOf, StrictlyOrdered, Patched, DeltaOf;
    if |frames| == 1 {
      SingleNeverFalls(frames);
    } else {
      var n, before := |frames|, frames[..|frames| - 1];
      CountersReachLastFrame(before);
      DeltasReachLastFrame(before);
      NoneFallsSplits(frames);
      PatchedCounters(PatchedThrough(frames[0], before), frames[n - 2], frames[n - 1]);
      CountersExact(PatchedThrough(frames[0], before).summary.counters, frames[n - 2].summary.counters,
                    frames[n - 1].summary.counters);
    }
  }

  lemma SingleNeverFalls(frames: seq<Frame>)
    requires |frames| == 1
    ensures NoneFalls(frames) && NoCounterFalls(frames[0].summary.counters, frames[0].summary.counters)
  {
  }

  lemma PatchedCounters(base: Frame, previous: Frame, current: Frame)
    ensures Patched(base, DeltaOf(previous, current)).summary.counters
         == CountersAdded(base.summary.counters, CounterDelta(previous.summary.counters, current.summary.counters))
  {
  }

  /** The three key lists of a difference are disjoint, and all are empty exactly if the maps are equal. */
  lemma DeltaKeysPartition(previous: Frame, current: Frame)
    ensures var d := DeltaOf(previous, current);
      var changed, created, removed := KeysOf(d.changed), KeysOf(ByPrice(d.created)), Members(d.removed);
      && changed !! created && changed !! removed && created !! removed
      && (d.changed == [] && d.created == [] && d.removed == [] <==> CellsOf(previous.cells) == CellsOf(current.cells))
  {
    var p, c := CellsOf(previous.cells), CellsOf(current.cells);
    hide CellsOf, Ascending, Members;
    CellsAreSelfKeyed(current.cells);
    PairedKeys(c, Ascending(ChangedKeys(p, c)));
    PairedKeys(c, Ascending(CreatedKeys(p, c)));
    ValuesArePaired(c, Ascending(CreatedKeys(p, c)));
    MembersAscending(ChangedKeys(p, c));
    MembersAscending(CreatedKeys(p, c));
    MembersAscending(RemovedKeys(p, c));
    if ChangedKeys(p, c) == {} && CreatedKeys(p, c) == {} && RemovedKeys(p, c) == {} {
      forall k ensures k in p <==> k in c {
        assert k !in CreatedKeys(p, c) && k !in RemovedKeys(p, c);
      }
      forall k | k in p ensures p[k] == c[k] {
        assert k !in ChangedKeys(p, c);
      }
      assert p == c;
    }
  }
}
