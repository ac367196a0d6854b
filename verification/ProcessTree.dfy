/** The process tree, and removing a whole subtree from every list at once. */
module ProcessTree {
  import opened Lists
  import opened Processes

  type Depths = map<int, nat>

  function Parents(ps: Procs): map<int, int> { map p | p in ps :: ps[p].parent }

  /** The chain of parents that starts at x leads to a. */
  ghost predicate Ancestor(par: map<int, int>, depth: Depths, x: int, a: int)
    decreases if x in depth then depth[x] else 0
  {
    x == a || (x in par && x in depth && par[x] in depth && depth[par[x]] < depth[x] && Ancestor(par, depth, par[x], a))
  }

  /** A process and all its descendants. */
  ghost function Below(par: map<int, int>, depth: Depths, a: int): set<int> {
    set x | x in par && Ancestor(par, depth, x, a)
  }

  ghost predicate Branch(ps: Procs, depth: Depths, p: int)
    requires p in ps
  {
    var pc := ps[p];
    && p >= 0 && p in depth && (p == IDLE <==> pc.parent == NOBODY)
    && (p != IDLE ==>
        pc.parent in ps && pc.parent in depth && depth[p] == depth[pc.parent] + 1 && p in ps[pc.parent].children)
    && NoDups(pc.children) && (forall c :: c in pc.children ==> c in ps && ps[c].parent == p)
    && (pc.state.Zombie? ==> pc.children == [])
    && (pc.state.Sched? && pc.state.resume.ReapChild? ==> pc.state.resume.child in pc.children)
  }

  /** Parents and children agree, idle is the only root, zombies have no children. */
  ghost predicate Tree(ps: Procs, depth: Depths) {
    IDLE in ps && NOBODY !in ps && forall p {:trigger Branch(ps, depth, p)} :: p in ps ==> Branch(ps, depth, p)
  }

  lemma ChildOf(ps: Procs, depth: Depths, p: int, c: int)
    requires Tree(ps, depth) && p in ps && c in ps[p].children
    ensures c in ps && ps[c].parent == p && c != p && c != IDLE && c in depth && p in depth && depth[c] == depth[p] + 1
  {
    assert Branch(ps, depth, p) && Branch(ps, depth, c);
  }

  lemma {:induction false} AncestorDeeper(par: map<int, int>, depth: Depths, x: int, a: int)
    requires Ancestor(par, depth, x, a) && x in depth && a in depth
    ensures x == a || depth[a] < depth[x]
    decreases depth[x]
  {
    if x != a {
      AncestorDeeper(par, depth, par[x], a);
    }
  }

  lemma {:induction false} AncestorTrans(par: map<int, int>, depth: Depths, x: int, a: int, b: int)
    requires Ancestor(par, depth, x, a) && Ancestor(par, depth, a, b)
    ensures Ancestor(par, depth, x, b)
    decreases if x in depth then depth[x] else 0
  {
    if x != a {
      AncestorTrans(par, depth, par[x], a, b);
    }
  }

  /** Of two processes above a third one, one is above the other. */
  lemma {:induction false} AncestorsInLine(par: map<int, int>, depth: Depths, x: int, a: int, b: int)
    requires Ancestor(par, depth, x, a) && Ancestor(par, depth, x, b)
    ensures Ancestor(par, depth, a, b) || Ancestor(par, depth, b, a)
    decreases if x in depth then depth[x] else 0
  {
    if x != a && x != b {
      AncestorsInLine(par, depth, par[x], a, b);
    }
  }

  lemma StepUp(ps: Procs, depth: Depths, x: int, a: int)
    requires Tree(ps, depth) && x in ps && a in ps
    ensures Ancestor(Parents(ps), depth, x, a) <==>
        x == a || (x != IDLE && Ancestor(Parents(ps), depth, ps[x].parent, a))
    ensures x != IDLE ==>
        ps[x].parent in ps && x in depth && ps[x].parent in depth && depth[x] == depth[ps[x].parent] + 1
  {
    assert Branch(ps, depth, x) && Branch(ps, depth, a);
    var par := Parents(ps);
    assert par[x] == ps[x].parent;
    assert !Ancestor(par, depth, NOBODY, a);
  }

  /** A chain that survives in a part of the tree is a chain of the tree. */
  lemma {:induction false} AncestorMore(par: map<int, int>, part: map<int, int>, depth: Depths, x: int, a: int)
    requires Ancestor(part, depth, x, a) && forall y :: y in part ==> y in par && par[y] == part[y]
    ensures Ancestor(par, depth, x, a)
    decreases if x in depth then depth[x] else 0
  {
    if x != a {
      AncestorMore(par, part, depth, part[x], a);
    }
  }

  /** A set of processes that holds the children of its members. */
  ghost predicate Closed(ps: Procs, k: set<int>) { forall x :: x in ps && ps[x].parent in k ==> x in k }

  /** A closed set that holds the children of p holds all its strict descendants. */
  lemma {:induction false} ClosedHolds(ps: Procs, depth: Depths, k: set<int>, p: int, x: int)
    requires Tree(ps, depth) && Closed(ps, k) && p in ps && forall c :: c in ps[p].children ==> c in k
    requires x in ps && Ancestor(Parents(ps), depth, x, p) && x != p
    ensures x in k
    decreases if x in depth then depth[x] else 0
  {
    assert Branch(ps, depth, x);
    StepUp(ps, depth, x, p);
    if ps[x].parent != p {
      ClosedHolds(ps, depth, k, p, ps[x].parent);
    }
  }

  lemma BelowClosed(ps: Procs, depth: Depths, p: int)
    requires Tree(ps, depth) && p in ps
    ensures Closed(ps, Below(Parents(ps), depth, p))
  {
    forall x | x in ps && ps[x].parent in Below(Parents(ps), depth, p)
      ensures x in Below(Parents(ps), depth, p)
    {
      assert Branch(ps, depth, x);
      StepUp(ps, depth, x, p);
      assert Ancestor(Parents(ps), depth, x, p);
    }
  }

  lemma StrictClosed(ps: Procs, depth: Depths, p: int)
    requires Tree(ps, depth) && p in ps
    ensures forall x :: x in ps && ps[x].parent in Below(Parents(ps), depth, p) ==>
        x in Below(Parents(ps), depth, p) - {p}
  {
    BelowClosed(ps, depth, p);
    forall x | x in ps && ps[x].parent in Below(Parents(ps), depth, p)
      ensures x != p
    {
      assert Branch(ps, depth, p) && Branch(ps, depth, ps[x].parent);
      StepUp(ps, depth, x, p);
      AncestorDeeper(Parents(ps), depth, ps[x].parent, p);
    }
  }

  lemma LeafBelow(ps: Procs, depth: Depths, p: int)
    requires Tree(ps, depth) && p in ps && ps[p].children == []
    ensures Below(Parents(ps), depth, p) == {p}
  {
    forall x | x in Below(Parents(ps), depth, p)
      ensures x == p
    {
      if x != p {
        ClosedHolds(ps, depth, {}, p, x);
      }
    }
  }

  lemma BelowChild(ps: Procs, depth: Depths, p: int, c: int)
    requires Tree(ps, depth) && p in ps && c in ps[p].children
    ensures var par := Parents(ps);
            c in Below(par, depth, c) && p !in Below(par, depth, c) && Below(par, depth, c) < Below(par, depth, p)
  {
    var par := Parents(ps);
    ChildOf(ps, depth, p, c);
    StepUp(ps, depth, c, p);
    forall x | x in Below(par, depth, c)
      ensures x in Below(par, depth, p) && x != p
    {
      assert Branch(ps, depth, x);
      AncestorTrans(par, depth, x, c, p);
      AncestorDeeper(par, depth, x, c);
    }
    assert p in Below(par, depth, p);
  }

  // ----- taking processes out of the system -----

  ghost function PruneProcs(ps: Procs, k: set<int>): Procs {
    map x | x in ps && x !in k :: ps[x].(children := Without(ps[x].children, k))
  }

  ghost function PruneQueues(qs: map<int, Queue>, k: set<int>): map<int, Queue> {
    map q | q in qs :: qs[q].(waiters := Without(qs[q].waiters, k))
  }

  ghost function PruneRings(rings: seq<seq<int>>, k: set<int>): (r: seq<seq<int>>)
    ensures |r| == |rings| && forall i :: 0 <= i < |r| ==> r[i] == Without(rings[i], k)
  {
    seq(|rings|, i requires 0 <= i < |rings| => Without(rings[i], k))
  }

  /** The system without some processes: gone from the tree and from all lists. */
  ghost function Prune(s: Sys, k: set<int>): Sys {
    s.(procs := PruneProcs(s.procs, k), rings := PruneRings(s.rings, k), queues := PruneQueues(s.queues, k),
       cons := Without(s.cons, k), sleepers := Without(s.sleepers, k))
  }

  lemma PruneList(s: Sys, k: set<int>, h: Home)
    ensures HasList(Prune(s, k), h) == HasList(s, h)
    ensures HasList(s, h) ==> List(Prune(s, k), h) == Without(List(s, h), k)
    ensures Prune(s, k).procs == PruneProcs(s.procs, k) && |Prune(s, k).rings| == |s.rings|
  {
  }

  lemma PruneHomed(s: Sys, k: set<int>)
    requires Homed(s)
    ensures Homed(Prune(s, k))
  {
    hide Prune;
    var s' := Prune(s, k);
    PruneList(s, k, Nowhere);
    forall p | p in s'.procs
      ensures HasHome(s', p)
    {
      assert HasHome(s, p);
      PruneList(s, k, HomeOf(s.procs[p]));
    }
    forall h | HasList(s', h)
      ensures Houses(s', h)
    {
      PruneList(s, k, h);
      assert Houses(s, h);
      WithoutNoDups(List(s, h), k);
    }
  }

  lemma PruneTree(ps: Procs, depth: Depths, k: set<int>)
    requires Tree(ps, depth) && Closed(ps, k) && IDLE !in k
    requires forall p :: p in ps && p !in k && ps[p].state.Sched? && ps[p].state.resume.ReapChild? ==>
        ps[p].state.resume.child !in k
    ensures Tree(PruneProcs(ps, k), depth)
  {
    var ps' := PruneProcs(ps, k);
    forall p | p in ps'
      ensures Branch(ps', depth, p)
    {
      assert Branch(ps, depth, p);
      WithoutNoDups(ps[p].children, k);
      assert p != IDLE ==> ps[p].parent !in k;
    }
  }

  lemma PruneParents(ps: Procs, k: set<int>)
    ensures Parents(PruneProcs(ps, k)) == Parents(ps) - k
  {
  }

  lemma PruneTwice(s: Sys, a: set<int>, b: set<int>)
    ensures Prune(Prune(s, a), b) == Prune(s, a + b)
  {
    PruneProcsTwice(s.procs, a, b);
    PruneQueuesTwice(s.queues, a, b);
    forall i | 0 <= i < |s.rings|
      ensures PruneRings(PruneRings(s.rings, a), b)[i] == PruneRings(s.rings, a + b)[i]
    {
      WithoutTwice(s.rings[i], a, b);
    }
    assert PruneRings(PruneRings(s.rings, a), b) == PruneRings(s.rings, a + b);
    WithoutTwice(s.cons, a, b);
    WithoutTwice(s.sleepers, a, b);
  }

  lemma PruneProcsTwice(ps: Procs, a: set<int>, b: set<int>)
    ensures PruneProcs(PruneProcs(ps, a), b) == PruneProcs(ps, a + b)
  {
    var l, r := PruneProcs(PruneProcs(ps, a), b), PruneProcs(ps, a + b);
    forall x | x in r
      ensures x in l && l[x] == r[x]
    {
      WithoutTwice(ps[x].children, a, b);
    }
  }

  lemma PruneQueuesTwice(qs: map<int, Queue>, a: set<int>, b: set<int>)
    ensures PruneQueues(PruneQueues(qs, a), b) == PruneQueues(qs, a + b)
  {
    var l, r := PruneQueues(PruneQueues(qs, a), b), PruneQueues(qs, a + b);
    forall x | x in r
      ensures x in l && l[x] == r[x]
    {
      WithoutTwice(qs[x].waiters, a, b);
    }
  }

  lemma PruneNone(s: Sys)
    ensures Prune(s, {}) == s
  {
    forall x | x in s.procs
      ensures Without(s.procs[x].children, {}) == s.procs[x].children
    {
      WithoutNone(s.procs[x].children, {});
    }
    forall q | q in s.queues
      ensures Without(s.queues[q].waiters, {}) == s.queues[q].waiters
    {
      WithoutNone(s.queues[q].waiters, {});
    }
    forall i | 0 <= i < |s.rings|
      ensures Without(s.rings[i], {}) == s.rings[i]
    {
      WithoutNone(s.rings[i], {});
    }
    WithoutNone(s.cons, {});
    WithoutNone(s.sleepers, {});
    assert PruneProcs(s.procs, {}) == s.procs && PruneQueues(s.queues, {}) == s.queues
        && PruneRings(s.rings, {}) == s.rings;
  }
}
