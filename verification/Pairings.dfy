/** Pairing falls with later rises inside a time window: always taking the oldest unexpired fall
    pairs as many as any pairing can. */
module Pairings {
  import opened Liquidity
  import opened Ordering

  datatype Direction = Fall | Rise | Other

  datatype Mark = Mark(direction: Direction, time: nat)

  type Pairing = set<(nat, nat)>

  ghost predicate InOrder(marks: seq<Mark>) {
    forall i, j | 0 <= i < j < |marks| :: marks[i].time <= marks[j].time
  }

  predicate CanPair(marks: seq<Mark>, window: nat, i: nat, j: nat) {
    && i < j < |marks|
    && marks[i].direction == Fall && marks[j].direction == Rise
    && marks[j].time <= marks[i].time + window
  }

  /** Disjoint pairs of a fall and a later rise inside the window. */
  ghost predicate IsPairing(marks: seq<Mark>, window: nat, m: Pairing) {
    && (forall p | p in m :: CanPair(marks, window, p.0, p.1))
    && (forall p, q | p in m && q in m && (p.0 == q.0 || p.1 == q.1) :: p == q)
  }

  datatype Greedy = Greedy(free: seq<nat>, pairs: Pairing)

  function Oldest(marks: seq<Mark>, free: seq<nat>, time: nat, window: nat): (i: nat)
    requires forall k | 0 <= k < |free| :: free[k] < |marks|
    ensures i <= |free|
    ensures forall k | 0 <= k < i :: marks[free[k]].time + window < time
    ensures i < |free| ==> time <= marks[free[i]].time + window
  {
    if free == [] || time <= marks[free[0]].time + window then 0 else 1 + Oldest(marks, free[1..], time, window)
  }

  /** The first `n` marks, each rise taking the first free fall inside the window. */
  function GreedyRun(marks: seq<Mark>, window: nat, n: nat): (g: Greedy)
    requires n <= |marks|
    ensures forall k | 0 <= k < |g.free| :: g.free[k] < n
  {
    if n == 0 then Greedy([], {})
    else GreedyStep(marks, window, n - 1, GreedyRun(marks, window, n - 1))
  }

  function GreedyStep(marks: seq<Mark>, window: nat, n: nat, g: Greedy): (r: Greedy)
    requires n < |marks| && forall k | 0 <= k < |g.free| :: g.free[k] < n
    ensures forall k | 0 <= k < |r.free| :: r.free[k] <= n
  {
    match marks[n].direction
    case Fall => g.(free := g.free + [n])
    case Rise =>
      var i := Oldest(marks, g.free, marks[n].time, window);
      if i < |g.free| then Greedy(Without(g.free, i), g.pairs + {(g.free[i], n)}) else g
    case Other => g
  }

  /** Falls among the first `n` marks that no pair completed before `n` uses. */
  ghost function Unpaired(marks: seq<Mark>, m: Pairing, n: nat): set<nat>
    requires n <= |marks|
  {
    set i | 0 <= i < n && marks[i].direction == Fall && forall p | p in m && p.1 < n :: p.0 != i
  }

  ghost function Completed(m: Pairing, n: nat): Pairing {
    set p | p in m && p.1 < n
  }

  ghost predicate GreedySound(marks: seq<Mark>, window: nat, n: nat, g: Greedy)
    requires n <= |marks|
  {
    && StrictlyAscending(g.free)
    && Members(g.free) == Unpaired(marks, g.pairs, n)
    && IsPairing(marks, window, g.pairs)
    && (forall p | p in g.pairs :: p.1 < n)
  }

  lemma StepIsSound(marks: seq<Mark>, window: nat, n: nat, g: Greedy)
    requires n < |marks| && GreedySound(marks, window, n, g)
    requires forall k | 0 <= k < |g.free| :: g.free[k] < n
    ensures GreedySound(marks, window, n + 1, GreedyStep(marks, window, n, g))
  {
    if marks[n].direction == Rise {
      var i := Oldest(marks, g.free, marks[n].time, window);
      if i < |g.free| {
        TakingIsSound(marks, window, n, g, i);
      } else {
        assert Unpaired(marks, g.pairs, n + 1) == Unpaired(marks, g.pairs, n);
      }
    } else if marks[n].direction == Fall {
      assert Unpaired(marks, g.pairs, n + 1) == Unpaired(marks, g.pairs, n) + {n};
    } else {
      assert Unpaired(marks, g.pairs, n + 1) == Unpaired(marks, g.pairs, n);
    }
  }

  lemma TakingIsSound(marks: seq<Mark>, window: nat, n: nat, g: Greedy, i: nat)
    requires n < |marks| && marks[n].direction == Rise && GreedySound(marks, window, n, g)
    requires i < |g.free| && g.free[i] < n && marks[n].time <= marks[g.free[i]].time + window
    ensures GreedySound(marks, window, n + 1, Greedy(Without(g.free, i), g.pairs + {(g.free[i], n)}))
  {
    WithoutMembers(g.free, i);
    assert g.free[i] in Unpaired(marks, g.pairs, n);
    assert Unpaired(marks, g.pairs + {(g.free[i], n)}, n + 1) == Unpaired(marks, g.pairs, n) - {g.free[i]};
  }

  lemma WithoutMembers(s: seq<nat>, i: nat)
    requires i < |s| && StrictlyAscending(s)
    ensures StrictlyAscending(Without(s, i)) && Members(Without(s, i)) == Members(s) - {s[i]}
  {
    forall x ensures x in Without(s, i) <==> x in s && x != s[i] {
      if x in s && x != s[i] {
        var k :| 0 <= k < |s| && s[k] == x;
        assert x in s[..i] || x in s[i + 1..] by {
          if k < i { assert s[..i][k] == x; } else { assert s[i + 1..][k - i - 1] == x; }
        }
      }
    }
  }

  lemma {:induction false} GreedyIsSound(marks: seq<Mark>, window: nat, n: nat)
    requires n <= |marks|
    ensures GreedySound(marks, window, n, GreedyRun(marks, window, n))
  {
    if n == 0 {
      assert Unpaired(marks, {}, 0) == {};
    } else {
      GreedyIsSound(marks, window, n - 1);
      StepIsSound(marks, window, n - 1, GreedyRun(marks, window, n - 1));
    }
  }

  /** Members whose time has reached `cut`. */
  ghost function Late(marks: seq<Mark>, s: set<nat>, cut: int): set<nat> {
    set i | i in s && i < |marks| && marks[i].time >= cut
  }

  /** `l` pairs and the falls `open` are worth, at every cut, at least `k` pairs and the falls `other`. */
  ghost predicate Leads(marks: seq<Mark>, l: nat, open: set<nat>, k: nat, other: set<nat>) {
    forall cut: int :: k + |Late(marks, other, cut)| <= l + |Late(marks, open, cut)|
  }

  lemma LateWithout(marks: seq<Mark>, s: set<nat>, x: nat, cut: int)
    requires x in s && x < |marks|
    ensures |Late(marks, s - {x}, cut)| == |Late(marks, s, cut)| - (if marks[x].time >= cut then 1 else 0)
  {
    if marks[x].time >= cut {
      assert Late(marks, s, cut) == Late(marks, s - {x}, cut) + {x};
    } else {
      assert Late(marks, s, cut) == Late(marks, s - {x}, cut);
    }
  }

  lemma SubsetSize<T>(a: set<T>, b: set<T>)
    requires a <= b
    ensures |a| <= |b|
  {
    assert b == a + (b - a);
  }

  lemma LateAdd(marks: seq<Mark>, s: set<nat>, x: nat, cut: int)
    requires x !in s && x < |marks|
    ensures |Late(marks, s + {x}, cut)| == |Late(marks, s, cut)| + (if marks[x].time >= cut then 1 else 0)
  {
    LateWithout(marks, s + {x}, x, cut);
    assert s + {x} - {x} == s;
  }

  lemma FallKeepsLead(marks: seq<Mark>, l: nat, open: set<nat>, k: nat, other: set<nat>, n: nat)
    requires Leads(marks, l, open, k, other)
    requires n < |marks| && n !in open && n !in other
    ensures Leads(marks, l, open + {n}, k, other + {n})
  {
    forall cut: int ensures k + |Late(marks, other + {n}, cut)| <= l + |Late(marks, open + {n}, cut)| {
      LateAdd(marks, other, n, cut);
      LateAdd(marks, open, n, cut);
      assert k + |Late(marks, other, cut)| <= l + |Late(marks, open, cut)|;
    }
  }

  ghost predicate IsOldest(marks: seq<Mark>, open: set<nat>, g: nat, oldest: int)
    requires g < |marks|
  {
    forall x | x in Late(marks, open, oldest) :: marks[g].time <= marks[x].time
  }

  /** The exchange argument: both sides use up a fall, the leading one the oldest it may. */
  lemma BothPair(marks: seq<Mark>, l: nat, open: set<nat>, k: nat, other: set<nat>, oldest: int, g: nat, i: nat)
    requires Leads(marks, l, open, k, other)
    requires g in open && g < |marks|
    requires IsOldest(marks, open, g, oldest)
    requires i in other && i < |marks| && marks[i].time >= oldest
    ensures Leads(marks, l + 1, open - {g}, k + 1, other - {i})
  {
    forall cut: int ensures k + 1 + |Late(marks, other - {i}, cut)| <= l + 1 + |Late(marks, open - {g}, cut)| {
      LateWithout(marks, other, i, cut);
      LateWithout(marks, open, g, cut);
      assert k + |Late(marks, other, cut)| <= l + |Late(marks, open, cut)|;
      if marks[i].time < cut <= marks[g].time {
        assert k + |Late(marks, other, oldest)| <= l + |Late(marks, open, oldest)|;
        SubsetSize(Late(marks, open, oldest), Late(marks, open, cut));
        SubsetSize(Late(marks, other, cut) + {i}, Late(marks, other, oldest));
      }
    }
  }

  lemma OnlyLeaderPairs(marks: seq<Mark>, l: nat, open: set<nat>, k: nat, other: set<nat>, g: nat)
    requires Leads(marks, l, open, k, other)
    requires g in open && g < |marks|
    ensures Leads(marks, l + 1, open - {g}, k, other)
  {
    forall cut: int ensures k + |Late(marks, other, cut)| <= l + 1 + |Late(marks, open - {g}, cut)| {
      LateWithout(marks, open, g, cut);
      assert k + |Late(marks, other, cut)| <= l + |Late(marks, open, cut)|;
    }
  }

  /** If the leader finds nothing to pair, the other side only catches up. */
  lemma OnlyOtherPairs(marks: seq<Mark>, l: nat, open: set<nat>, k: nat, other: set<nat>, oldest: int, i: nat)
    requires Leads(marks, l, open, k, other)
    requires Late(marks, open, oldest) == {}
    requires i in other && i < |marks| && marks[i].time >= oldest
    ensures Leads(marks, l, open, k + 1, other - {i})
  {
    forall cut: int ensures k + 1 + |Late(marks, other - {i}, cut)| <= l + |Late(marks, open, cut)| {
      LateWithout(marks, other, i, cut);
      assert k + |Late(marks, other, cut)| <= l + |Late(marks, open, cut)|;
      if marks[i].time < cut {
        assert k + |Late(marks, other, oldest)| <= l + |Late(marks, open, oldest)|;
        SubsetSize(Late(marks, other, cut) + {i}, Late(marks, other, oldest));
      }
    }
  }

  lemma FallStep(marks: seq<Mark>, window: nat, m: Pairing, n: nat)
    requires IsPairing(marks, window, m) && n < |marks| && marks[n].direction == Fall
    ensures Completed(m, n + 1) == Completed(m, n)
    ensures Unpaired(marks, m, n + 1) == Unpaired(marks, m, n) + {n} && n !in Unpaired(marks, m, n)
  {
  }

  lemma IdleStep(marks: seq<Mark>, window: nat, m: Pairing, n: nat)
    requires IsPairing(marks, window, m) && n < |marks| && marks[n].direction != Fall
    requires forall p | p in m :: p.1 != n
    ensures Completed(m, n + 1) == Completed(m, n)
    ensures Unpaired(marks, m, n + 1) == Unpaired(marks, m, n)
  {
  }

  lemma PairStep(marks: seq<Mark>, window: nat, m: Pairing, p: (nat, nat))
    requires IsPairing(marks, window, m) && p in m
    ensures p.0 < p.1 < |marks|
    ensures |Completed(m, p.1 + 1)| == |Completed(m, p.1)| + 1
    ensures p.0 in Unpaired(marks, m, p.1)
    ensures Unpaired(marks, m, p.1 + 1) == Unpaired(marks, m, p.1) - {p.0}
    ensures marks[p.0].time >= marks[p.1].time - window
  {
    assert Completed(m, p.1 + 1) == Completed(m, p.1) + {p};
  }

  ghost predicate GreedyLeads(marks: seq<Mark>, window: nat, m: Pairing, n: nat)
    requires n <= |marks|
  {
    var g := GreedyRun(marks, window, n);
    Leads(marks, |g.pairs|, Members(g.free), |Completed(m, n)|, Unpaired(marks, m, n))
  }

  lemma OldestIsLeast(marks: seq<Mark>, free: seq<nat>, time: nat, window: nat)
    requires InOrder(marks) && StrictlyAscending(free) && forall k | 0 <= k < |free| :: free[k] < |marks|
    ensures var i := Oldest(marks, free, time, window);
      && (i < |free| ==> IsOldest(marks, Members(free), free[i], time - window))
      && (i == |free| ==> Late(marks, Members(free), time - window) == {})
  {
  }

  lemma RunStep(marks: seq<Mark>, window: nat, n: nat)
    requires n < |marks|
    ensures GreedyRun(marks, window, n + 1) == GreedyStep(marks, window, n, GreedyRun(marks, window, n))
  {
  }

  /** A rise that finds an unexpired free fall. */
  lemma RiseTakes(marks: seq<Mark>, window: nat, n: nat)
    requires InOrder(marks) && n < |marks| && marks[n].direction == Rise
    requires Oldest(marks, GreedyRun(marks, window, n).free, marks[n].time, window) < |GreedyRun(marks, window, n).free|
    ensures var g, next := GreedyRun(marks, window, n), GreedyRun(marks, window, n + 1);
      var taken := g.free[Oldest(marks, g.free, marks[n].time, window)];
      && |next.pairs| == |g.pairs| + 1
      && Members(next.free) == Members(g.free) - {taken}
      && taken in Members(g.free) && IsOldest(marks, Members(g.free), taken, marks[n].time - window)
  {
    hide Members, Unpaired, IsPairing, InOrder, StrictlyAscending, GreedyRun;
    RunStep(marks, window, n);
    var g := GreedyRun(marks, window, n);
    var i := Oldest(marks, g.free, marks[n].time, window);
    GreedyIsSound(marks, window, n);
    OldestIsLeast(marks, g.free, marks[n].time, window);
    WithoutMembers(g.free, i);
    FreshPair(g.pairs, g.free[i], n);
  }

  /** A rise that finds none. */
  lemma RiseIdles(marks: seq<Mark>, window: nat, n: nat)
    requires InOrder(marks) && n < |marks| && marks[n].direction == Rise
    requires Oldest(marks, GreedyRun(marks, window, n).free, marks[n].time, window)
          == |GreedyRun(marks, window, n).free|
    ensures GreedyRun(marks, window, n + 1) == GreedyRun(marks, window, n)
    ensures Late(marks, Members(GreedyRun(marks, window, n).free), marks[n].time - window) == {}
  {
    hide Members, Unpaired, IsPairing, InOrder, Late, StrictlyAscending, GreedyRun;
    RunStep(marks, window, n);
    GreedyIsSound(marks, window, n);
    OldestIsLeast(marks, GreedyRun(marks, window, n).free, marks[n].time, window);
  }

  lemma RiseKeepsLead(marks: seq<Mark>, window: nat, m: Pairing, n: nat)
    requires InOrder(marks) && IsPairing(marks, window, m)
    requires n < |marks| && marks[n].direction == Rise
    requires GreedyLeads(marks, window, m, n)
    ensures GreedyLeads(marks, window, m, n + 1)
  {
    hide Leads, Unpaired, Completed, InOrder, IsPairing, Late, Members, IsOldest, GreedyRun;
    var g, time := GreedyRun(marks, window, n), marks[n].time;
    var i := Oldest(marks, g.free, time, window);
    var open, k, other := Members(g.free), |Completed(m, n)|, Unpaired(marks, m, n);
    if i < |g.free| { RiseTakes(marks, window, n); } else { RiseIdles(marks, window, n); }
    if p :| p in m && p.1 == n {
      PairStep(marks, window, m, p);
      if i < |g.free| {
        BothPair(marks, |g.pairs|, open, k, other, time - window, g.free[i], p.0);
      } else {
        OnlyOtherPairs(marks, |g.pairs|, open, k, other, time - window, p.0);
      }
    } else {
      IdleStep(marks, window, m, n);
      if i < |g.free| {
        OnlyLeaderPairs(marks, |g.pairs|, open, k, other, g.free[i]);
      }
    }
  }

  lemma FreshPair(m: Pairing, i: nat, n: nat)
    requires forall p | p in m :: p.1 < n
    ensures |m + {(i, n)}| == |m| + 1
  {
    assert (i, n) !in m;
  }

  lemma {:induction false} GreedyAlwaysLeads(marks: seq<Mark>, window: nat, m: Pairing, n: nat)
    requires InOrder(marks) && IsPairing(marks, window, m) && n <= |marks|
    ensures GreedyLeads(marks, window, m, n)
  {
    hide InOrder, IsPairing, GreedyLeads, GreedyRun;
    if n == 0 {
      StartLeads(marks, window, m);
    } else {
      GreedyAlwaysLeads(marks, window, m, n - 1);
      if marks[n - 1].direction == Rise {
        RiseKeepsLead(marks, window, m, n - 1);
      } else {
        OthersKeepLead(marks, window, m, n - 1);
      }
    }
  }

  lemma StartLeads(marks: seq<Mark>, window: nat, m: Pairing)
    requires IsPairing(marks, window, m)
    ensures GreedyLeads(marks, window, m, 0)
  {
    assert Completed(m, 0) == {} && Unpaired(marks, m, 0) == {};
    assert Members([]) == {};
  }

  lemma OthersKeepLead(marks: seq<Mark>, window: nat, m: Pairing, n: nat)
    requires IsPairing(marks, window, m)
    requires n < |marks| && marks[n].direction != Rise
    requires GreedyLeads(marks, window, m, n)
    ensures GreedyLeads(marks, window, m, n + 1)
  {
    hide Leads, Unpaired, Completed;
    var g := GreedyRun(marks, window, n);
    if marks[n].direction == Fall {
      FallStep(marks, window, m, n);
      FallKeepsLead(marks, |g.pairs|, Members(g.free), |Completed(m, n)|, Unpaired(marks, m, n), n);
      assert Members(g.free + [n]) == Members(g.free) + {n};
    } else {
      IdleStep(marks, window, m, n);
    }
  }

  /** Greedy pairing is a pairing, and no pairing has more pairs. */
  lemma GreedyIsMaximum(marks: seq<Mark>, window: nat)
    requires InOrder(marks)
    ensures IsPairing(marks, window, GreedyRun(marks, window, |marks|).pairs)
    ensures forall m: Pairing | IsPairing(marks, window, m) :: |m| <= |GreedyRun(marks, window, |marks|).pairs|
  {
    hide InOrder, IsPairing, GreedyRun;
    GreedyIsSound(marks, window, |marks|);
    forall m: Pairing | IsPairing(marks, window, m) ensures |m| <= |GreedyRun(marks, window, |marks|).pairs| {
      NoneLarger(marks, window, m);
    }
  }

  lemma NoneLarger(marks: seq<Mark>, window: nat, m: Pairing)
    requires InOrder(marks) && IsPairing(marks, window, m)
    ensures |m| <= |GreedyRun(marks, window, |marks|).pairs|
  {
    hide GreedyRun, Unpaired;
    GreedyAlwaysLeads(marks, window, m, |marks|);
    assert Completed(m, |marks|) == m;
    var open := Members(GreedyRun(marks, window, |marks|).free);
    var beyond := if marks == [] then 0 else marks[|marks| - 1].time + 1;
    assert Late(marks, open, beyond) == {};
    assert |m| <= |GreedyRun(marks, window, |marks|).pairs| + |Late(marks, open, beyond)|;
  }
}
