/** Birth, death and priority of processes: what they do to the whole system, and when it stays sound. */
module ProcessLife {
  import opened Lists
  import opened Processes
  import opened ProcessTree
  import opened MessageQueues
  import opened ProcessState
  import opened ProcessSteps

  // ----- birth -----

  /** The tree with a new first child of a process. */
  ghost function AddChild(s: Sys, a: int, c: int): Sys
    requires a in s.procs && a in s.depth
  {
    s.(procs := s.procs[a := s.procs[a].(children := [c] + s.procs[a].children)], depth := s.depth[c := s.depth[a] + 1])
  }

  function Newborn(a: int, priority: int): Proc { Proc(a, [], priority, Sched(Nothing)) }

  ghost function Born(s: Sys, c: int, priority: int): Sys
    requires s.active in s.procs && s.active in s.depth && 0 <= priority < MAX_PRIORITY <= |s.rings|
  {
    AddChild(Enter(s, c, Newborn(s.active, priority)), s.active, c)
  }

  lemma BirthTree(ps: Procs, depth: Depths, a: int, c: int, pc: Proc)
    requires Tree(ps, depth) && a in ps && c !in ps && c > 0 && pc.parent == a && pc.children == []
    requires pc.state == Sched(Nothing) && !ps[a].state.Zombie?
    ensures a in depth
    ensures Tree(ps[c := pc][a := ps[a].(children := [c] + ps[a].children)], depth[c := depth[a] + 1])
  {
    assert Branch(ps, depth, a);
    var ps', depth' := ps[c := pc][a := ps[a].(children := [c] + ps[a].children)], depth[c := depth[a] + 1];
    assert c !in ps[a].children;
    forall p | p in ps'
      ensures Branch(ps', depth', p)
    {
      if p != c {
        assert Branch(ps, depth, p);
        assert ps[p].parent != c;
      }
    }
  }

  /** Records that differ in their children only are in the same lists. */
  lemma ChildrenHomed(s: Sys, ps': Procs)
    requires Homed(s) && ps'.Keys == s.procs.Keys
    requires forall p :: p in s.procs ==> ps'[p].state == s.procs[p].state && ps'[p].priority == s.procs[p].priority
    ensures Homed(s.(procs := ps'))
  {
    var s' := s.(procs := ps');
    forall p | p in s'.procs
      ensures HasHome(s', p)
    {
      assert HasHome(s, p);
    }
    forall h | HasList(s', h)
      ensures Houses(s', h)
    {
      assert HasList(s, h) && List(s', h) == List(s, h);
      assert Houses(s, h);
    }
  }

  /** The queues only look at who waits, and whether to send or to receive. */
  lemma QueuedSame(s: Sys, s': Sys)
    requires Queued(s) && s'.queues == s.queues && s'.sent == s.sent && s'.got == s.got
    requires forall q, p :: q in s.queues && p in s.queues[q].waiters && p in s.procs ==>
        p in s'.procs && s'.procs[p].state == s.procs[p].state
    ensures Queued(s')
  {
    forall q | q in s'.queues
      ensures QueueSound(s', q)
    {
      assert QueueSound(s, q);
      forall p | p in s'.queues[q].waiters
        ensures WaitsRightly(s', q, p)
      {
        assert WaitsRightly(s, q, p);
      }
    }
  }

  lemma EnterRing(s: Sys, c: int, pc: Proc)
    requires pc.state.Sched? && CanEnter(s, pc)
    ensures Enter(s, c, pc) ==
        s.(procs := s.procs[c := pc], rings := s.rings[pc.priority := [c] + s.rings[pc.priority]])
  {
  }

  lemma BornKept(s: Sys, c: int, priority: int)
    requires Kept(s) && s.active in s.procs && !s.procs[s.active].state.Zombie? && c !in s.procs && c > 0
    requires 0 <= priority < MAX_PRIORITY
    ensures s.active in s.depth && Kept(Born(s, c, priority))
  {
    var pc := Newborn(s.active, priority);
    BirthTree(s.procs, s.depth, s.active, c, pc);
    EnterHomed(s, c, pc);
    EnterRing(s, c, pc);
    var s' := Born(s, c, priority);
    ChildrenHomed(Enter(s, c, pc), s'.procs);
    QueuedSame(s, s');
    SortedSame(s.procs, s'.procs, s.sleepers);
    DepthIsIdle(Enter(s, c, pc).(procs := s'.procs), s'.depth);
  }

  lemma DepthIsIdle(s: Sys, depth: Depths)
    requires Homed(s)
    ensures Homed(s.(depth := depth))
  {
    SameHomes(s, s.(depth := depth));
  }

  /** A process that is started runs at once exactly when it outranks its parent. */
  lemma BornSound(s: Sys, c: int, priority: int)
    requires Sound(s) && c !in s.procs && c > 0 && 0 <= priority < MAX_PRIORITY
    ensures s.active in s.depth && MAX_PRIORITY <= |s.rings| && Sound(Urgent(Born(s, c, priority), c))
  {
    hide Kept;
    KeptRings(s);
    BornKept(s, c, priority);
    var s1 := Born(s, c, priority);
    var pc := Newborn(s.active, priority);
    BornReady(s, c, priority);
    ActiveOnly(s1, c);
    forall p | p in s1.procs
      ensures ReapsZombie(s1.procs, p)
    {
      assert p != c ==> ReapsZombie(s.procs, p);
    }
  }

  lemma KeptRings(s: Sys)
    requires Kept(s)
    ensures |s.rings| == MAX_PRIORITY
    ensures s.active in s.procs ==> 0 <= s.procs[s.active].priority < MAX_PRIORITY && s.active in s.depth
  {
    assert s.active in s.procs ==> HasHome(s, s.active) && Branch(s.procs, s.depth, s.active);
  }

  lemma BornReady(s: Sys, c: int, priority: int)
    requires Ready(s) && c !in s.procs && 0 <= priority < MAX_PRIORITY == |s.rings| && s.active in s.depth
    requires 0 <= s.procs[s.active].priority < MAX_PRIORITY
    ensures Ready(Urgent(Born(s, c, priority), c))
    ensures var ps' := Born(s, c, priority).procs;
        ps'.Keys == s.procs.Keys + {c} && ps'[c] == Newborn(s.active, priority)
    ensures forall p :: p in s.procs ==> Born(s, c, priority).procs[p].state == s.procs[p].state
  {
    EnterRing(s, c, Newborn(s.active, priority));
  }

  // ----- reaping -----

  /** Nobody is about to reap this process. */
  ghost predicate Unclaimed(ps: Procs, c: int) {
    forall p :: p in ps && ps[p].state.Sched? ==> ps[p].state.resume != ReapChild(c)
  }

  /** The record and the parent's list entry of a zombie disappear, which is all there is of it. */
  ghost function Freed(s: Sys, c: int): Sys
    requires c in s.procs
  {
    var a := s.procs[c].parent;
    var ps := s.procs - {c};
    s.(procs := if a in ps then ps[a := ps[a].(children := Remove(ps[a].children, c))] else ps)
  }

  lemma FreedIsPruned(s: Sys, c: int)
    requires Kept(s) && c in s.procs && s.procs[c].state.Zombie?
    ensures Freed(s, c) == Prune(s, {c})
  {
    var s', k := Freed(s, c), {c};
    NowhereUnlisted(s, c);
    forall i | 0 <= i < |s.rings|
      ensures s.rings[i] == PruneRings(s.rings, k)[i]
    {
      assert c !in List(s, Ring(i));
      WithoutNone(s.rings[i], k);
    }
    assert s.rings == PruneRings(s.rings, k);
    forall q | q in s.queues
      ensures Without(s.queues[q].waiters, k) == s.queues[q].waiters
    {
      assert c !in List(s, InQueue(q));
      WithoutNone(s.queues[q].waiters, k);
    }
    assert s.queues == PruneQueues(s.queues, k);
    assert c !in List(s, OnConsole) && c !in List(s, Asleep);
    WithoutNone(s.cons, k);
    WithoutNone(s.sleepers, k);
    FreedProcs(s, c);
  }

  lemma FreedProcs(s: Sys, c: int)
    requires Tree(s.procs, s.depth) && c in s.procs
    ensures Freed(s, c).procs == PruneProcs(s.procs, {c})
  {
    var l, r := Freed(s, c).procs, PruneProcs(s.procs, {c});
    assert Branch(s.procs, s.depth, c);
    forall x | x in r
      ensures x in l && l[x] == r[x]
    {
      assert Branch(s.procs, s.depth, x);
      if x == s.procs[c].parent {
        WithoutOne(s.procs[x].children, c);
      } else {
        WithoutNone(s.procs[x].children, {c});
      }
    }
  }

  lemma NowhereUnlisted(s: Sys, c: int)
    requires Homed(s) && (c in s.procs ==> HomeOf(s.procs[c]) == Nowhere)
    ensures forall h :: HasList(s, h) ==> c !in List(s, h)
  {
    forall h | HasList(s, h)
      ensures c !in List(s, h)
    {
      assert Houses(s, h);
    }
  }

  lemma FreedKept(s: Sys, c: int)
    requires Kept(s) && c in s.procs && s.procs[c].state.Zombie? && Unclaimed(s.procs, c) && c != IDLE
    ensures Kept(Freed(s, c)) && Freed(s, c) == Prune(s, {c}) && Freed(s, c).procs.Keys == s.procs.Keys - {c}
  {
    FreedIsPruned(s, c);
    assert Branch(s.procs, s.depth, c);
    forall x | x in s.procs && s.procs[x].parent == c
      ensures x in s.procs[c].children
    {
      assert Branch(s.procs, s.depth, x);
    }
    PruneKept(s, {c});
  }

  // ----- priorities -----

  /** A process with a new priority; in a ring or a wait list it goes to the front. */
  ghost function Reranked(s: Sys, p: int, k: int): Sys
    requires Homed(s) && p in s.procs && 0 <= k < MAX_PRIORITY
  {
    assert HasHome(s, p);
    var pc := s.procs[p].(priority := k);
    if s.procs[p].state.Sched? || s.procs[p].state.WaitQueue? then Move(s, p, pc) else s.(procs := s.procs[p := pc])
  }

  lemma RerankedKept(s: Sys, p: int, k: int)
    requires Kept(s) && p in s.procs && 0 <= k < MAX_PRIORITY
    ensures Kept(Reranked(s, p, k)) && Reranked(s, p, k).procs == s.procs[p := s.procs[p].(priority := k)]
    ensures Reranked(s, p, k).active == s.active
  {
    var pc := s.procs[p].(priority := k);
    assert HasHome(s, p) && Branch(s.procs, s.depth, p);
    if s.procs[p].state.Sched? || s.procs[p].state.WaitQueue? {
      assert s.procs[p].state.WaitQueue? ==>
          Houses(s, InQueue(s.procs[p].state.queue)) && QueueSound(s, s.procs[p].state.queue);
      assert s.procs[p].state.WaitQueue? ==> WaitsRightly(s, s.procs[p].state.queue, p);
      MoveKept(s, p, pc);
      MoveFields(s, p, pc);
    } else {
      var s' := Reranked(s, p, k);
      RecordHomed(s, p, pc);
      MoveTree(s.procs, s.depth, p, pc);
      QueuedSame(s, s');
      SortedSame(s.procs, s'.procs, s.sleepers);
    }
  }

  /** A record that stays in the same list. */
  lemma RecordHomed(s: Sys, p: int, pc: Proc)
    requires Homed(s) && p in s.procs && HomeOf(pc) == HomeOf(s.procs[p]) && 0 <= pc.priority < MAX_PRIORITY
    ensures Homed(s.(procs := s.procs[p := pc]))
  {
    var s' := s.(procs := s.procs[p := pc]);
    forall q | q in s'.procs
      ensures HasHome(s', q)
    {
      assert HasHome(s, q);
    }
    forall h | HasList(s', h)
      ensures Houses(s', h)
    {
      assert HasList(s, h) && List(s', h) == List(s, h);
      assert Houses(s, h);
    }
  }

  /** The process that the scheduler runs after a priority changed. */
  ghost function RunsAfter(s: Sys, p: int, k: int): int
    requires Kept(s) && p in s.procs && 0 <= k < MAX_PRIORITY
  {
    RerankedKept(s, p, k);
    var was := s.procs[p].priority;
    if s.procs[p].state.Sched? && k < was && p == s.active then
      InItsRing(s, p);
      var next := NextOf(s.rings[was], p);
      if next != NOBODY then next else HighestBelow(Reranked(s, p, k).rings, was)
    else s.active
  }

  ghost function Ranked(s: Sys, p: int, k: int): Sys
    requires Kept(s) && p in s.procs && 0 <= k < MAX_PRIORITY
  {
    Reranked(s, p, k).(active := RunsAfter(s, p, k))
  }

  /** It is not another ready process that is raised above the active one. */
  predicate PrioritySafe(s: Sys, p: int, k: int)
    requires p in s.procs && s.active in s.procs
  {
    !(s.procs[p].state.Sched? && p != s.active && k > s.procs[s.active].priority)
  }

  /** Changing a priority keeps the most urgent process active, except when another ready process is raised above the
      active one: then the scheduler does not switch. */
  lemma PrioritySound(s: Sys, p: int, k: int)
    requires Sound(s) && p in s.procs && 0 <= k < MAX_PRIORITY && !s.procs[p].state.Zombie? && k != s.procs[p].priority
    ensures Sound(Ranked(s, p, k)) <==> PrioritySafe(s, p, k)
  {
    hide Tree, Queued, SleepSorted;
    NobodyOnly(s);
    RerankedKept(s, p, k);
    var s1, n := Reranked(s, p, k), RunsAfter(s, p, k);
    ActiveOnly(s1, n);
    SettledReranked(s.procs, p, k);
    if s.procs[p].state.Sched? {
      InItsRing(s, p);
      AfterInRing(s.rings[s.procs[p].priority], p);
      MoveRings(s, p, s.procs[p].(priority := k), s.procs[s.active].priority);
      if p == s.active {
        RerankActive(s, k);
      } else if k > s.procs[s.active].priority {
        InItsRing(s1, p);
        assert s1.rings[k] != [];
      }
    } else {
      OtherRings(s, p, k);
    }
  }

  lemma OtherRings(s: Sys, p: int, k: int)
    requires Homed(s) && p in s.procs && 0 <= k < MAX_PRIORITY && !s.procs[p].state.Sched?
    ensures Reranked(s, p, k).rings == s.rings
  {
    assert HasHome(s, p);
  }

  lemma SettledReranked(ps: Procs, p: int, k: int)
    requires Settled(ps) && p in ps
    ensures Settled(ps[p := ps[p].(priority := k)])
  {
    var ps' := ps[p := ps[p].(priority := k)];
    forall q | q in ps'
      ensures ReapsZombie(ps', q)
    {
      assert ReapsZombie(ps, q);
    }
  }

  lemma RerankActive(s: Sys, k: int)
    requires Kept(s) && Ready(s) && 0 <= k < MAX_PRIORITY && k != s.procs[s.active].priority && NOBODY !in s.procs
    ensures Ready(Reranked(s, s.active, k).(active := RunsAfter(s, s.active, k)))
  {
    var p, was := s.active, s.procs[s.active].priority;
    var s1 := Reranked(s, p, k);
    RerankedKept(s, p, k);
    InItsRing(s, p);
    AfterInRing(s.rings[was], p);
    assert HasHome(s, p);
    MoveRings(s, p, s.procs[p].(priority := k), was);
    if k < was {
      MoveLists(s, p, s.procs[p].(priority := k), Ring(was));
      if s.rings[was] == [p] {
        NoneAtTop(s1.rings, was);
        HighestIsTop(s1, was);
        InItsRing(s1, p);
      }
    }
  }

  /** The facts that the scheduler needs when it changes the priority of a ready process. */
  lemma RerankSteps(s: Sys, p: int, k: int)
    requires Kept(s) && ActiveReady(s) && p in s.procs && 0 <= k < MAX_PRIORITY && s.procs[p].state.Sched?
    ensures var s1, was := Reranked(s, p, k), s.procs[p].priority;
            && HasHome(s, p) && CanEnter(Leave(s, p), s.procs[p].(priority := k))
            && s1 == Enter(Leave(s, p), p, s.procs[p].(priority := k))
            && Kept(s1) && Homed(s1) && s1.active == s.active && s.active in s1.procs && |s1.rings| == MAX_PRIORITY
            && 0 <= was < MAX_PRIORITY
            && HighestBelow(s1.rings, MAX_PRIORITY) != NOBODY && NOBODY !in s.procs
            && (p == s.active && s.rings[was] == [p] && k < was ==> HighestBelow(s1.rings, was) != NOBODY)
  {
    RerankedKept(s, p, k);
    NobodyOnly(s);
    assert HasHome(s, p);
    LeaveLists(s, p, Ring(k));
    var s1 := Reranked(s, p, k);
    HighestIsTop(s1, MAX_PRIORITY);
    InItsRing(s1, p);
    if p == s.active && s.rings[s.procs[p].priority] == [p] && k < s.procs[p].priority {
      RerankBelow(s, p, k);
    }
  }

  lemma RerankBelow(s: Sys, p: int, k: int)
    requires Kept(s) && ActiveReady(s) && p == s.active && 0 <= k < s.procs[p].priority < MAX_PRIORITY
    requires s.rings[s.procs[p].priority] == [p]
    ensures Homed(Reranked(s, p, k)) && s.procs[p].priority <= |Reranked(s, p, k).rings|
    ensures HighestBelow(Reranked(s, p, k).rings, s.procs[p].priority) != NOBODY
  {
    RerankedKept(s, p, k);
    NobodyOnly(s);
    RingsBelow(Reranked(s, p, k), s.procs[p].priority);
    InItsRing(Reranked(s, p, k), p);
  }
}
