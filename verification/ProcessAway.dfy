/** What is left after a kill that switched away in the middle, and when the kernel can go on from there. */
module ProcessAway {
  import opened Lists
  import opened Processes
  import opened ProcessTree
  import opened ProcessOrder
  import opened ProcessState
  import opened ProcessSteps
  import opened ProcessLife
  import opened ProcessDeath
  import opened ProcessSwitch

  // ----- the processor -----

  /** Who is ready after such a kill was not reached by it. */
  lemma AwayReady(s: Sys, p: int, s': Sys, x: int)
    requires SwitchedAway(s, p, s') && x in s'.procs && s'.procs[x].state.Sched?
    ensures x in s.procs && x !in ReachedBy(s, p) && s'.procs[x] == s.procs[x]
  {
    assert LeftAs(s, p, s', x);
  }

  lemma AwayRings(s: Sys, p: int, s': Sys, j: nat)
    requires SwitchedAway(s, p, s') && j < |s'.rings|
    ensures j < |s.rings| && forall x :: x in s'.rings[j] ==> x in s.rings[j] && x !in ReachedBy(s, p)
  {
    hide Kept, LeftAs, SwitchedTo, Reached;
    assert s'.rings[j] == Without(s.rings[j], ReachedSet(s, p));
  }

  lemma AwayNoneAbove(s: Sys, p: int, s': Sys, k: int)
    requires SwitchedAway(s, p, s') && Kept(s) && NoneAbove(s.rings, k)
    ensures NoneAbove(s'.rings, k)
  {
    forall j | 0 <= j < |s'.rings| && k < j
      ensures s'.rings[j] == []
    {
      AwayRings(s, p, s', j);
      assert s.rings[j] == [];
      NoMembers(s'.rings[j]);
    }
  }

  lemma NoneBut(l: seq<int>, k: set<int>, a: int, rest: seq<int>)
    requires Without(l, k) == [a] && forall x :: x in rest ==> x in l && x !in k && x != a
    ensures rest == []
  {
    assert forall x :: x in Without(l, k) ==> x == a;
    var x := AnyMember(rest);
  }

  /** A process of the active process's ring that did not leave it before is gone exactly when it is under the active
      one. */
  lemma AwayGone(s: Sys, p: int, s': Sys, x: int)
    requires SwitchedAway(s, p, s') && Kept(s) && s.active in Subtree(s, p) && x in s.procs && x != s.active
    requires x !in BeforeActive(s, p)
    ensures x in Subtree(s, s.active) ==> x !in s'.procs
    ensures x !in Subtree(s, s.active) ==> x in s'.procs && s'.procs[x] == s.procs[x]
  {
    hide Homed, Queued, SleepSorted, Reached;
    assert LeftAs(s, p, s', x);
    ReachedMembers(s.procs, s.depth, p, s.active);
    ReachesStop(s.procs, s.depth, p, s.active);
    if x in Subtree(s, s.active) {
      NotAbove(s, s.active, x);
    }
  }

  /** The active process was alone in its ring, as far as that was left: the ring is empty now, and idle is ready. */
  lemma AwayIdle(s: Sys, p: int, s': Sys)
    requires SwitchedAway(s, p, s') && Kept(s) && p != IDLE && s.active in Subtree(s, p) && Killable(s, p)
    requires var k := s.procs[s.active].priority;
        NoneAbove(s'.rings, k) && Without(s.rings[k], BeforeActive(s, p)) == [s.active]
    requires s'.active == HighestBelow(s'.rings, s.procs[s.active].priority)
    ensures Ready(s') && s'.active in s'.procs && s'.active !in Subtree(s, s.active)
  {
    hide Queued, SleepSorted, Reached;
    var a, k := s.active, s.procs[s.active].priority;
    ReachedMembers(s.procs, s.depth, p, a);
    ReachesStop(s.procs, s.depth, p, a);
    AwayRings(s, p, s', k);
    NoneBut(s.rings[k], BeforeActive(s, p), a, s'.rings[k]);
    NoneAtTop(s'.rings, k);
    NobodyOnly(s');
    HighestIsTop(s', k);
    RootOnly(s, p);
    ReachedBelow(s.procs, s.depth, p, a);
    assert LeftAs(s, p, s', IDLE);
    InItsRing(s', IDLE);
    AwayReady(s, p, s', s'.active);
  }

  /** The process that takes over when the recursion reaches the active one does not die with it. */
  ghost predicate HeirLives(s: Sys, p: int)
    requires Tree(s.procs, s.depth) && p in s.procs && s.active in s.procs
  {
    var k := s.procs[s.active].priority;
    0 <= k < |s.rings| ==>
      var ring := Without(s.rings[k], BeforeActive(s, p));
      s.active in ring ==> NextOf(ring, s.active) !in Subtree(s, s.active) - {s.active}
  }

  lemma NobodyBelow(s: Sys, a: int)
    requires NOBODY !in s.procs
    ensures NOBODY !in Subtree(s, a)
  {
  }

  /** When nobody was ready above the active process, the processor goes to a most urgent ready process, unless it
      goes to a descendant of the active process, which the kill has freed. */
  lemma AwayRuns(s: Sys, p: int, s': Sys)
    requires SwitchedAway(s, p, s') && Kept(s) && p != IDLE && s.active in Subtree(s, p) && Killable(s, p)
    requires NoneAbove(s.rings, s.procs[s.active].priority)
    ensures Tree(s.procs, s.depth) && (Ready(s') <==> HeirLives(s, p)) && (s'.active in s'.procs <==> HeirLives(s, p))
    ensures HeirLives(s, p) <==> s'.active !in Subtree(s, s.active) - {s.active}
  {
    hide Queued, SleepSorted, Reached, Subtree;
    var a, k := s.active, s.procs[s.active].priority;
    NobodyOnly(s);
    NobodyOnly(s');
    var before := BeforeActive(s, p);
    var ring := Without(s.rings[k], before);
    InItsRing(s, a);
    WithoutNoDups(s.rings[k], before);
    AfterInRing(ring, a);
    AwayNoneAbove(s, p, s', k);
    NobodyBelow(s, a);
    var next := NextOf(ring, a);
    if next != NOBODY {
      assert next in s.rings[k] && next != a && next !in before;
      AwayGone(s, p, s', next);
    } else {
      AwayIdle(s, p, s');
    }
  }

  // ----- the stored states -----

  /** The record as it is stored: a process that was to be killed still has the state it had. */
  function Stored(pc: Proc): Proc { if pc.state.Dying? then pc.(state := pc.state.was) else pc }

  function StoredProcs(ps: Procs): Procs { map p | p in ps :: Stored(ps[p]) }

  ghost function AsStored(s: Sys): Sys { s.(procs := StoredProcs(s.procs)) }

  /** All processes between the target of a kill and the active one, the target included, wait for a child. */
  ghost predicate PathWaits(s: Sys, p: int) {
    forall x :: x in s.procs && x in Subtree(s, p) && s.active in Subtree(s, x) && x != s.active ==>
        s.procs[x].state.WaitChild?
  }

  /** The half-dead processes after a kill that switched away: those between the target and the active one. */
  lemma DyingAre(s: Sys, p: int, r: Sys, x: int)
    requires SwitchedAway(s, p, r) && Kept(s) && NoneDying(s.procs) && s.active in Subtree(s, p)
    ensures x in r.procs && r.procs[x].state.Dying? <==>
              x in s.procs && x in Subtree(s, p) && s.active in Subtree(s, x) && x != s.active
    ensures x in r.procs && r.procs[x].state.Dying? ==>
        r.procs[x].state.was == s.procs[x].state && !s.procs[x].state.Zombie?
  {
    hide Homed, Queued, SleepSorted, SwitchedTo, Reached;
    ReachedBelow(s.procs, s.depth, p, s.active);
    if x in s.procs {
      assert LeftAs(s, p, r, x);
      if x in Subtree(s, p) && s.active in Subtree(s, x) && x != s.active {
        ReachesPath(s.procs, s.depth, p, x, s.active);
        assert Branch(s.procs, s.depth, x);
        if s.procs[x].state.Zombie? {
          LeafBelow(s.procs, s.depth, x);
        }
      }
    }
  }

  /** Half-dead processes that waited for a child are in the list that their stored state names, which is none. */
  lemma StoredKept(r: Sys)
    requires Kept(r) && forall x :: x in r.procs && r.procs[x].state.Dying? ==> r.procs[x].state.was.WaitChild?
    ensures Kept(AsStored(r))
  {
    var s' := AsStored(r);
    StoredHomed(r);
    StoredTree(r);
    forall q | q in s'.queues
      ensures QueueSound(s', q)
    {
      assert QueueSound(r, q);
      forall x | x in s'.queues[q].waiters
        ensures WaitsRightly(s', q, x)
      {
        assert WaitsRightly(r, q, x);
      }
    }
    SortedSame(r.procs, s'.procs, r.sleepers);
  }

  lemma StoredHomed(r: Sys)
    requires Homed(r) && forall x :: x in r.procs && r.procs[x].state.Dying? ==> r.procs[x].state.was.WaitChild?
    ensures Homed(AsStored(r))
  {
    var s' := AsStored(r);
    forall x | x in s'.procs
      ensures HasHome(s', x)
    {
      assert HasHome(r, x);
    }
    forall h | HasList(s', h)
      ensures Houses(s', h)
    {
      assert HasList(r, h) && List(s', h) == List(r, h);
      assert Houses(r, h);
    }
  }

  lemma StoredTree(r: Sys)
    requires Tree(r.procs, r.depth)
    requires forall x :: x in r.procs && r.procs[x].state.Dying? ==> r.procs[x].state.was.WaitChild?
    ensures Tree(AsStored(r).procs, r.depth)
  {
    var ps' := AsStored(r).procs;
    forall x | x in ps'
      ensures Branch(ps', r.depth, x)
    {
      assert Branch(r.procs, r.depth, x);
    }
  }

  /** A half-dead process whose stored state names a list is not in it. */
  lemma StoredBroken(r: Sys, x: int)
    requires Kept(r) && x in r.procs && r.procs[x].state.Dying? && HomeOf(Stored(r.procs[x])) != Nowhere
    ensures !Homed(AsStored(r))
    ensures HasList(r, HomeOf(Stored(r.procs[x]))) ==> x !in List(AsStored(r), HomeOf(Stored(r.procs[x])))
  {
    var s', h := AsStored(r), HomeOf(Stored(r.procs[x]));
    if HasList(r, h) {
      assert HasList(s', h) && List(s', h) == List(r, h);
      assert Houses(r, h) && !Houses(s', h);
    } else {
      assert !HasHome(s', x);
    }
  }

  /** After a kill that switched away each process is in exactly the list its stored state names, if and only if all
      processes between the target and the active one were waiting for a child. */
  lemma AwayKept(s: Sys, p: int, r: Sys)
    requires SwitchedAway(s, p, r) && Kept(s) && NoneDying(s.procs) && s.active in Subtree(s, p)
    ensures Kept(AsStored(r)) <==> PathWaits(s, p)
    ensures NoneDying(AsStored(r).procs)
  {
    hide Kept, LeftAs, SwitchedTo, Subtree, Homed;
    forall x | x in r.procs && r.procs[x].state.Dying?
      ensures x in s.procs && r.procs[x].state.was == s.procs[x].state && !s.procs[x].state.Zombie?
    {
      DyingAre(s, p, r, x);
    }
    if PathWaits(s, p) {
      forall x | x in r.procs && r.procs[x].state.Dying?
        ensures r.procs[x].state.was.WaitChild?
      {
        DyingAre(s, p, r, x);
      }
      StoredKept(r);
    } else {
      var x :| x in s.procs && x in Subtree(s, p) && s.active in Subtree(s, x) && x != s.active
          && !s.procs[x].state.WaitChild?;
      DyingAre(s, p, r, x);
      StoredBroken(r, x);
      NotHomed(AsStored(r));
    }
  }

  lemma NotHomed(s: Sys)
    requires !Homed(s)
    ensures !Kept(s)
  {
  }

  // ----- when the kernel goes on soundly -----

  /** The parent was told, and then the kill switched away; the records are those that are stored. */
  ghost predicate AwayAfterKill(s: Sys, p: int, s': Sys) {
    && Kept(s) && p in s.procs
    && exists r {:trigger SwitchedAway(ParentTold(s, p), p, r)} ::
        SwitchedAway(ParentTold(s, p), p, r) && s' == AsStored(r)
  }

  lemma AwayIs(s: Sys, p: int, r: Sys)
    requires Kept(s) && p in s.procs && SwitchedAway(ParentTold(s, p), p, r)
    ensures AwayAfterKill(s, p, AsStored(r))
  {
  }

  /** Telling the parent changes nothing below the target. */
  lemma ToldPath(s: Sys, p: int)
    requires Kept(s) && p in s.procs
    ensures Kept(ParentTold(s, p)) && ParentTold(s, p).active == s.active && p in ParentTold(s, p).procs
    ensures forall x :: Subtree(ParentTold(s, p), x) == Subtree(s, x)
    ensures PathWaits(ParentTold(s, p), p) <==> PathWaits(s, p)
    ensures NoneDying(s.procs) ==> NoneDying(ParentTold(s, p).procs)
  {
    hide Queued, SleepSorted;
    ToldKept(s, p);
    if Awaited(s.procs, p) {
      var a := s.procs[p].parent;
      ParentOutside(s, p);
      assert HasHome(s, a);
      SameParents(s, a, s.procs[a].(state := Sched(ReapChild(p))));
    }
  }

  /** After a kill that switched away, in terms of the system before the call. */
  lemma AwayKillKept(s: Sys, p: int, s': Sys)
    requires AwayAfterKill(s, p, s') && NoneDying(s.procs) && s.active in Subtree(s, p)
    ensures (Kept(s') <==> PathWaits(s, p)) && NoneDying(s'.procs)
  {
    hide Kept, SwitchedAway, PathWaits, ParentTold, Subtree;
    KeptHomed(s);
    ToldPath(s, p);
    var r :| SwitchedAway(ParentTold(s, p), p, r) && s' == AsStored(r);
    AwayKept(ParentTold(s, p), p, r);
  }

  /** A parent that was told of a death that did not come has nothing to reap. */
  lemma AwayToldUnsound(s: Sys, p: int, s': Sys)
    requires Sound(s) && AwayAfterKill(s, p, s') && s.active in Subtree(s, p) - {p} && Awaited(s.procs, p)
    ensures !Sound(s')
  {
    hide Homed, Queued, SleepSorted, SwitchedTo;
    ToldPath(s, p);
    ToldKept(s, p);
    var t := ParentTold(s, p);
    var r :| SwitchedAway(t, p, r) && s' == AsStored(r);
    var a := s.procs[p].parent;
    ParentOutside(s, p);
    ReachedBelow(t.procs, t.depth, p, t.active);
    assert LeftAs(t, p, r, a);
    DyingAre(t, p, r, p);
    SelfBelow(s, p);
    assert !ReapsZombie(s'.procs, a);
  }

  /** A zombie whose parent was not reached was not reached. */
  lemma ZombieMissed(s: Sys, p: int, q: int, z: int)
    requires Kept(s) && p in s.procs && q in s.procs && z in s.procs[q].children && q !in ReachedBy(s, p)
    requires s.active in Subtree(s, p) - {p} && z in s.procs && s.procs[z].state.Zombie?
    ensures z !in ReachedBy(s, p)
  {
    ChildOf(s.procs, s.depth, q, z);
    if z in ReachedBy(s, p) {
      if z == p {
        assert Branch(s.procs, s.depth, z);
        LeafBelow(s.procs, s.depth, z);
      }
      ReachedUp(s.procs, s.depth, p, s.active, z);
    }
  }

  lemma AwaySettled(s: Sys, p: int, r: Sys)
    requires Sound(s) && p != IDLE && SwitchedAway(s, p, r) && s.active in Subtree(s, p) - {p} && PathWaits(s, p)
    ensures Settled(AsStored(r).procs)
  {
    hide Homed, Queued, SleepSorted, SwitchedTo, Reached, Subtree;
    var ps' := AsStored(r).procs;
    AwayKept(s, p, r);
    RootOnly(s, p);
    ReachedBelow(s.procs, s.depth, p, s.active);
    assert LeftAs(s, p, r, IDLE);
    forall q | q in ps'
      ensures ReapsZombie(ps', q)
    {
      assert LeftAs(s, p, r, q) && ReapsZombie(s.procs, q) && Branch(s.procs, s.depth, q);
      DyingAre(s, p, r, q);
      if ps'[q].state.Sched? && ps'[q].state.resume.ReapChild? {
        var z := ps'[q].state.resume.child;
        ZombieMissed(s, p, q, z);
        assert LeftAs(s, p, r, z);
      }
    }
  }

  /** A kill that switched away leaves a sound system if and only if the parent was not waiting for the target, all
      processes between the target and the active one were waiting for a child, and the process that takes over does
      not die with the active one. */
  lemma AwaySound(s: Sys, p: int, s': Sys)
    requires Sound(s) && p != IDLE && AwayAfterKill(s, p, s') && s.active in Subtree(s, p) - {p}
    ensures Tree(s.procs, s.depth)
    ensures Sound(s') <==> !Awaited(s.procs, p) && PathWaits(s, p) && HeirLives(s, p)
  {
    hide Homed, Queued, SleepSorted, Tree, SwitchedAway, PathWaits, HeirLives, Settled;
    NoneDyingSound(s);
    AwayKillKept(s, p, s');
    if Awaited(s.procs, p) {
      AwayToldUnsound(s, p, s');
    } else if PathWaits(s, p) {
      SoundKillable(s, p);
      var r :| SwitchedAway(ParentTold(s, p), p, r) && s' == AsStored(r);
      AwaySettled(s, p, r);
      AwayRuns(s, p, r);
      StoredReady(s, p, r);
    }
  }

  lemma NoneDyingSound(s: Sys)
    requires Sound(s)
    ensures NoneDying(s.procs)
  {
  }

  lemma StoredReady(s: Sys, p: int, r: Sys)
    requires SwitchedAway(s, p, r) && Kept(s) && NoneDying(s.procs) && s.active in Subtree(s, p) && PathWaits(s, p)
    ensures Ready(AsStored(r)) <==> Ready(r)
  {
    hide Homed, Tree, Queued, SleepSorted, SwitchedAway;
    DyingAre(s, p, r, r.active);
  }

  /** When a kill that switched away leaves a sound system, as far as can be seen before the call. */
  ghost predicate AwaySafe(s: Sys, p: int)
    requires Kept(s) && s.active in s.procs && p in s.procs
  {
    !Awaited(s.procs, p) && PathWaits(s, p) && HeirLives(s, p)
  }

  lemma AwayEffect(s: Sys, p: int, r: Sys)
    requires Sound(s) && p in s.procs && p != IDLE && SwitchedAway(ParentTold(s, p), p, r)
    requires s.active in Subtree(s, p) - {p}
    ensures AwayAfterKill(s, p, AsStored(r)) && (Sound(AsStored(r)) <==> AwaySafe(s, p)) && s.active in Subtree(s, p)
  {
    hide SwitchedAway, PathWaits, HeirLives;
    AwayIs(s, p, r);
    AwaySound(s, p, AsStored(r));
  }
}
