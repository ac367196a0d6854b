/** Killing a process: its whole subtree disappears, and it stays as a zombie until it is waited for. */
module ProcessDeath {
  import opened Lists
  import opened Processes
  import opened ProcessTree
  import opened MessageQueues
  import opened ProcessState
  import opened ProcessSteps
  import opened ProcessLife

  ghost function Subtree(s: Sys, p: int): set<int> { Below(Parents(s.procs), s.depth, p) }

  /** A process on its way to becoming a zombie: out of its list, still in the tree. */
  ghost function Detach(s: Sys, p: int): Sys
    requires p in s.procs && HasHome(s, p)
  {
    Move(s, p, Detached(s.procs[p]))
  }

  ghost function Corpse(s: Sys, p: int, code: int): Sys
    requires p in s.procs
  {
    s.(procs := s.procs[p := s.procs[p].(state := Zombie(code), children := [])])
  }

  /** The system after a process was killed: its strict descendants are gone, it is a zombie, all else is as it was. */
  ghost function Killed(s: Sys, p: int, code: int): Sys
    requires p in s.procs && HasHome(s, p)
  {
    MoveLists(s, p, Detached(s.procs[p]), Nowhere);
    var s1 := Prune(Detach(s, p), Subtree(s, p) - {p});
    assert p in s1.procs;
    Corpse(s1, p, code)
  }

  lemma SameParents(s: Sys, p: int, pc: Proc)
    requires p in s.procs && HasHome(s, p) && CanEnter(s, pc) && pc.parent == s.procs[p].parent
    ensures Parents(Move(s, p, pc).procs) == Parents(s.procs) && Move(s, p, pc).depth == s.depth
  {
    MoveFields(s, p, pc);
  }

  lemma DetachFacts(s: Sys, p: int)
    requires Kept(s) && p in s.procs
    ensures HasHome(s, p) && Kept(Detach(s, p)) && Subtree(Detach(s, p), p) == Subtree(s, p)
    ensures Detach(s, p).procs == s.procs[p := Detached(s.procs[p])] && Detach(s, p).depth == s.depth
    ensures Detach(s, p).active == s.active
  {
    assert HasHome(s, p);
    MoveKept(s, p, Detached(s.procs[p]));
    MoveFields(s, p, Detached(s.procs[p]));
    SameParents(s, p, Detached(s.procs[p]));
  }

  lemma DetachIs(s: Sys, p: int)
    requires p in s.procs && HasHome(s, p)
    ensures Detach(s, p) == Leave(s, p).(procs := s.procs[p := Detached(s.procs[p])])
    ensures HomeOf(s.procs[p]) == Nowhere ==> Leave(s, p) == s
  {
    LeaveLists(s, p, Nowhere);
  }

  // ----- the loop over the children -----

  /** Part of a subtree that can be cut off: with a member go all its descendants. */
  ghost predicate PartOf(s: Sys, p: int, k: set<int>) {
    && Closed(s.procs, k) && k <= Subtree(s, p) - {p}
    && forall x :: x in k && x in s.procs ==> s.procs[x].parent == p || s.procs[x].parent in k
  }

  lemma CutKept(s: Sys, p: int, k: set<int>)
    requires Kept(s) && p in s.procs && s.procs[p].state.Dying? && PartOf(s, p, k)
    ensures Kept(Prune(s, k))
  {
    forall q | q in s.procs && q !in k && s.procs[q].state.Sched? && s.procs[q].state.resume.ReapChild?
      ensures s.procs[q].state.resume.child !in k
    {
      assert Branch(s.procs, s.depth, q);
    }
    if IDLE in k {
      RootOnly(s, p);
    }
    PruneKept(s, k);
  }

  lemma RootOnly(s: Sys, p: int)
    requires Tree(s.procs, s.depth) && p in s.procs
    ensures IDLE !in Subtree(s, p) - {p}
  {
    StepUp(s.procs, s.depth, IDLE, p);
  }

  /** One more child, with all its descendants. */
  lemma CutMore(s: Sys, p: int, k: set<int>, c: int)
    requires Kept(s) && p in s.procs && PartOf(s, p, k) && Kept(Prune(s, k))
    requires p in Prune(s, k).procs && c in Prune(s, k).procs[p].children
    ensures var d := Subtree(Prune(s, k), c);
            PartOf(s, p, k + d) && c in d && p !in d && d < Subtree(s, p)
  {
    var t := Prune(s, k);
    var d := Subtree(t, c);
    PruneParents(s.procs, k);
    BelowChild(t.procs, t.depth, p, c);
    ChildOf(t.procs, t.depth, p, c);
    BelowClosed(t.procs, t.depth, c);
    forall x | x in d
      ensures x in Subtree(s, p) && (x == c || s.procs[x].parent in d)
    {
      AncestorMore(Parents(s.procs), Parents(t.procs), s.depth, x, c);
      StepUp(s.procs, s.depth, c, p);
      AncestorTrans(Parents(s.procs), s.depth, x, c, p);
      StepUp(t.procs, t.depth, x, c);
    }
    assert p in Subtree(s, p);
  }

  /** When no child is left, all strict descendants are gone. */
  lemma CutAll(s: Sys, p: int, k: set<int>)
    requires Kept(s) && p in s.procs && PartOf(s, p, k) && p in Prune(s, k).procs && Prune(s, k).procs[p].children == []
    ensures k == Subtree(s, p) - {p}
  {
    forall c | c in s.procs[p].children
      ensures c in k
    {
      assert c !in Without(s.procs[p].children, k);
    }
    forall x | x in Subtree(s, p) - {p}
      ensures x in k
    {
      ClosedHolds(s.procs, s.depth, k, p, x);
    }
  }

  /** Killing a process and freeing it takes its subtree out of the system, and nothing else. */
  lemma KilledThenFreed(s: Sys, c: int, code: int)
    requires Kept(s) && c in s.procs && HasHome(s, c)
    ensures Prune(Killed(s, c, code), {c}) == Prune(s, Subtree(s, c))
  {
    var d, s1 := Subtree(s, c), Detach(s, c);
    MoveLists(s, c, Detached(s.procs[c]), Nowhere);
    var s2 := Prune(s1, d - {c});
    CorpseGone(s2, c, code);
    PruneTwice(s1, d - {c}, {c});
    assert c in d && (d - {c}) + {c} == d;
    DetachGone(s, c, d);
  }

  lemma CorpseGone(s: Sys, c: int, code: int)
    requires c in s.procs
    ensures Prune(Corpse(s, c, code), {c}) == Prune(s, {c})
  {
    assert PruneProcs(Corpse(s, c, code).procs, {c}) == PruneProcs(s.procs, {c});
  }

  lemma DetachGone(s: Sys, c: int, d: set<int>)
    requires Homed(s) && c in s.procs && HasHome(s, c) && c in d
    ensures Prune(Detach(s, c), d) == Prune(s, d)
  {
    var pc := Detached(s.procs[c]);
    var s1 := Detach(s, c);
    MoveFields(s, c, pc);
    MoveLists(s, c, pc, Nowhere);
    assert PruneProcs(s1.procs, d) == PruneProcs(s.procs, d);
    forall i | 0 <= i < |s.rings|
      ensures PruneRings(s1.rings, d)[i] == PruneRings(s.rings, d)[i]
    {
      ListGone(s, c, d, Ring(i));
    }
    assert PruneRings(s1.rings, d) == PruneRings(s.rings, d);
    forall q | q in s.queues
      ensures PruneQueues(s1.queues, d)[q] == PruneQueues(s.queues, d)[q]
    {
      ListGone(s, c, d, InQueue(q));
    }
    assert PruneQueues(s1.queues, d) == PruneQueues(s.queues, d);
    ListGone(s, c, d, OnConsole);
    ListGone(s, c, d, Asleep);
  }

  lemma ListGone(s: Sys, c: int, d: set<int>, h: Home)
    requires Homed(s) && c in s.procs && HasHome(s, c) && c in d && HasList(s, h)
    ensures HasList(Detach(s, c), h) && Without(List(Detach(s, c), h), d) == Without(List(s, h), d)
  {
    MoveLists(s, c, Detached(s.procs[c]), h);
    assert Houses(s, h);
    WithoutOne(List(s, h), c);
    WithoutTwice(List(s, h), {c}, d);
    assert {c} + d == d;
  }

  lemma KilledKept(s: Sys, p: int, code: int)
    requires Kept(s) && p in s.procs
    ensures HasHome(s, p) && Kept(Killed(s, p, code))
    ensures Killed(s, p, code).procs.Keys == s.procs.Keys - (Subtree(s, p) - {p})
    ensures Killed(s, p, code).active == s.active
  {
    hide Kept, Detach, Prune, Subtree;
    DetachFacts(s, p);
    var s1, k := Detach(s, p), Subtree(s, p) - {p};
    KeptHomed(s1);
    StrictPart(s1, p);
    CutKept(s1, p, k);
    CutLeaves(s1, p);
    CorpseKept(Prune(s1, k), p, code);
  }

  /** After the strict descendants are gone, the process is still there, without children. */
  lemma CutLeaves(s: Sys, p: int)
    requires Kept(s) && p in s.procs
    ensures var t := Prune(s, Subtree(s, p) - {p});
            && p in t.procs && t.procs[p].state == s.procs[p].state && t.active == s.active
            && (forall c :: c in t.procs ==> t.procs[c].parent != p)
            && t.procs.Keys == s.procs.Keys - (Subtree(s, p) - {p})
  {
    StrictClosed(s.procs, s.depth, p);
    assert p in Subtree(s, p);
  }

  lemma StrictPart(s: Sys, p: int)
    requires Tree(s.procs, s.depth) && p in s.procs
    ensures PartOf(s, p, Subtree(s, p) - {p})
  {
    StrictClosed(s.procs, s.depth, p);
    forall x | x in Subtree(s, p) - {p} && x in s.procs
      ensures s.procs[x].parent in Subtree(s, p)
    {
      StepUp(s.procs, s.depth, x, p);
    }
  }

  lemma CorpseKept(s: Sys, p: int, code: int)
    requires Kept(s) && p in s.procs && s.procs[p].state.Dying? && forall c :: c in s.procs ==> s.procs[c].parent != p
    ensures Kept(Corpse(s, p, code))
  {
    assert HasHome(s, p) && Branch(s.procs, s.depth, p);
    NoChildren(s.procs, s.depth, p);
    var pc := s.procs[p].(state := Zombie(code), children := []);
    MoveKept(s, p, pc);
    assert Move(s, p, pc) == Corpse(s, p, code);
  }

  lemma NoChildren(ps: Procs, depth: Depths, p: int)
    requires Tree(ps, depth) && p in ps && forall c :: c in ps ==> ps[c].parent != p
    ensures ps[p].children == []
  {
    var l := ps[p].children;
    var c := AnyMember(l);
    assert Branch(ps, depth, p);
  }

  lemma AnyMember(l: seq<int>) returns (c: int)
    ensures l != [] ==> c in l
  {
    c := if l == [] then 0 else l[0];
  }

  /** No process of the subtree is half dead. When the active process is in it, it is ready, and idle is not more
      urgent. */
  ghost predicate Killable(s: Sys, p: int) {
    && (forall x :: x in Subtree(s, p) && x in s.procs ==> !s.procs[x].state.Dying?)
    && (s.active in Subtree(s, p) ==> Manned(s))
  }

  ghost predicate Manned(s: Sys) {
    && s.active in s.procs && s.procs[s.active].state.Sched? && IDLE in s.procs && s.procs[IDLE].state.Sched?
    && s.procs[IDLE].priority <= s.procs[s.active].priority
  }

  lemma KillableAt(s: Sys, p: int)
    requires Killable(s, p) && p in s.procs
    ensures !s.procs[p].state.Dying? && (p == s.active ==> Manned(s))
  {
    assert p in Parents(s.procs) && Ancestor(Parents(s.procs), s.depth, p, p);
  }

  lemma KeptHomed(s: Sys)
    requires Kept(s)
    ensures Homed(s) && Tree(s.procs, s.depth)
  {
  }

  /** In the middle of a kill: the process is detached, and the part k of its subtree is gone. */
  ghost predicate InKill(s: Sys, p: int, k: set<int>, t: Sys) {
    && Kept(s) && p in s.procs && p != IDLE && HasHome(s, p) && Killable(s, p)
    && PartOf(Detach(s, p), p, k) && t == Prune(Detach(s, p), k) && Kept(t)
    && p in t.procs && t.procs[p].state.Dying? && t.active == s.active && s.active !in k
  }

  lemma KillBegins(s: Sys, p: int)
    requires Kept(s) && p in s.procs && p != IDLE && Killable(s, p)
    ensures HasHome(s, p) && InKill(s, p, {}, Detach(s, p))
  {
    DetachFacts(s, p);
    PruneNone(Detach(s, p));
  }

  /** The next child can be killed, or freed when it is a zombie already. */
  lemma KillNext(s: Sys, p: int, k: set<int>, t: Sys) returns (c: int, d: set<int>)
    requires InKill(s, p, k, t) && t.procs[p].children != []
    ensures c == t.procs[p].children[0] && c in t.procs && c != IDLE && c != p && d == Subtree(t, c)
    ensures c in d && d <= Subtree(s, p) - {p} && d < Subtree(s, p)
    ensures Killable(t, c) && Unclaimed(t.procs, c) && HasHome(t, c)
    ensures PartOf(Detach(s, p), p, k + d)
    ensures t.procs[c].state.Zombie? ==> d == {c} && c != s.active
    ensures t.active == s.active
  {
    c, d := t.procs[p].children[0], Subtree(t, t.procs[p].children[0]);
    DetachFacts(s, p);
    var s1 := Detach(s, p);
    CutMore(s1, p, k, c);
    ChildOf(t.procs, t.depth, p, c);
    ChildUnclaimed(t, p, c);
    NextKillable(s, p, k, t, c);
    assert Branch(t.procs, t.depth, c) && HasHome(t, c);
    if t.procs[c].state.Zombie? {
      LeafBelow(t.procs, t.depth, c);
    }
  }

  lemma NextKillable(s: Sys, p: int, k: set<int>, t: Sys, c: int)
    requires InKill(s, p, k, t) && Subtree(t, c) <= Subtree(s, p) - {p}
    ensures Killable(t, c)
  {
    DetachFacts(s, p);
    RootOnly(s, p);
    forall x | x in t.procs && x != p
      ensures x in s.procs && t.procs[x].state == s.procs[x].state && t.procs[x].priority == s.procs[x].priority
    {
    }
    assert Branch(t.procs, t.depth, IDLE);
  }

  lemma ChildUnclaimed(t: Sys, p: int, c: int)
    requires Tree(t.procs, t.depth) && p in t.procs && c in t.procs[p].children && t.procs[p].state.Dying?
    ensures Unclaimed(t.procs, c)
  {
    assert Branch(t.procs, t.depth, p);
    forall q | q in t.procs && t.procs[q].state.Sched?
      ensures t.procs[q].state.resume != ReapChild(c)
    {
      assert Branch(t.procs, t.depth, q);
    }
  }

  /** After a child was killed, freeing it takes its whole subtree out of the system. */
  lemma KillStep(s: Sys, p: int, k: set<int>, t: Sys, c: int, d: set<int>, u: Sys)
    requires InKill(s, p, k, t) && c in t.procs && c in t.procs[p].children && c != p && d == Subtree(t, c)
    requires s.active !in d
    requires PartOf(Detach(s, p), p, k + d) && d <= Subtree(s, p) - {p} && (t.procs[c].state.Zombie? ==> d == {c})
    requires Kept(u) && HasHome(t, c) && u == if t.procs[c].state.Zombie? then t else Killed(t, c, 0)
    ensures c in u.procs && u.procs[c].state.Zombie? && Unclaimed(u.procs, c) && p in u.procs
    ensures Kept(Prune(u, {c})) ==> InKill(s, p, k + d, Prune(u, {c}))
    ensures Prune(u, {c}).procs.Keys < t.procs.Keys && Prune(u, {c}) == Prune(t, d)
  {
    PruneTwice(Detach(s, p), k, d);
    ParentKept(t, p, c);
    if !t.procs[c].state.Zombie? {
      KilledThenFreed(t, c, 0);
      KilledProcs(t, c, 0, p);
      KilledProcs(t, c, 0, c);
    }
    ChildUnclaimed(u, p, c);
  }

  lemma ParentKept(t: Sys, p: int, c: int)
    requires Kept(t) && p in t.procs && c in t.procs[p].children
    ensures p !in Subtree(t, c) && c in t.procs
    ensures !t.procs[c].state.Zombie? && HasHome(t, c) ==> p in Killed(t, c, 0).procs && c in Killed(t, c, 0).procs
    ensures !t.procs[c].state.Zombie? && HasHome(t, c) ==> Killed(t, c, 0).procs[p] == t.procs[p]
  {
    BelowChild(t.procs, t.depth, p, c);
    ChildOf(t.procs, t.depth, p, c);
    if !t.procs[c].state.Zombie? && HasHome(t, c) {
      KilledProcs(t, c, 0, p);
      KilledProcs(t, c, 0, c);
    }
  }

  lemma KillEnds(s: Sys, p: int, k: set<int>, t: Sys, code: int)
    requires InKill(s, p, k, t) && t.procs[p].children == []
    ensures Corpse(t, p, code) == Killed(s, p, code) && Kept(Killed(s, p, code)) && s.active !in Subtree(s, p) - {p}
    ensures Killed(s, p, code).procs.Keys == t.procs.Keys
  {
    DetachFacts(s, p);
    CutAll(Detach(s, p), p, k);
    KilledKept(s, p, code);
  }

  // ----- the whole kill -----

  /** The parent waits for this process, or for any child. */
  predicate Awaited(ps: Procs, p: int)
    requires p in ps
  {
    var a := ps[p].parent;
    a in ps && ps[a].state.WaitChild? && (ps[a].state.pid < 0 || ps[a].state.pid == p)
  }

  /** The system after the parent was told. */
  ghost function ParentTold(s: Sys, p: int): Sys
    requires Homed(s) && p in s.procs
  {
    var a := s.procs[p].parent;
    if Awaited(s.procs, p) then assert HasHome(s, a); Move(s, a, s.procs[a].(state := Sched(ReapChild(p)))) else s
  }

  lemma ToldKept(s: Sys, p: int)
    requires Kept(s) && p in s.procs
    ensures var t, a := ParentTold(s, p), s.procs[p].parent;
            && Kept(t) && Subtree(t, p) == Subtree(s, p) && t.active == s.active && p in t.procs
            && t.procs[p] == s.procs[p]
            && t.procs == (if Awaited(s.procs, p) then s.procs[a := s.procs[a].(state := Sched(ReapChild(p)))]
                else s.procs)
  {
    if Awaited(s.procs, p) {
      var a := s.procs[p].parent;
      var pc := s.procs[a].(state := Sched(ReapChild(p)));
      assert HasHome(s, a) && Branch(s.procs, s.depth, p);
      MoveKept(s, a, pc);
      MoveFields(s, a, pc);
      SameParents(s, a, pc);
      ChildOf(s.procs, s.depth, a, p);
    }
  }

  /** After the kill no process is ready above the most urgent of those that were. */
  lemma KilledRings(s: Sys, p: int, code: int, k: int)
    requires Kept(s) && p in s.procs && HasHome(s, p) && NoneAbove(s.rings, k)
    ensures NoneAbove(Killed(s, p, code).rings, k)
  {
    MoveRings(s, p, Detached(s.procs[p]), k);
    MoveLists(s, p, Detached(s.procs[p]), Nowhere);
  }

  /** Which records a kill leaves, and how. */
  lemma KilledProcs(s: Sys, p: int, code: int, q: int)
    requires Kept(s) && p in s.procs && HasHome(s, p) && q in s.procs && q !in Subtree(s, p) - {p}
    ensures q in Killed(s, p, code).procs && p in Subtree(s, p)
    ensures Killed(s, p, code).procs[q] ==
            if q == p then s.procs[p].(state := Zombie(code), children := []) else s.procs[q]
  {
    MoveLists(s, p, Detached(s.procs[p]), Nowhere);
    if q != p {
      assert Branch(s.procs, s.depth, q);
      forall c | c in s.procs[q].children
        ensures c !in Subtree(s, p) - {p}
      {
        assert Branch(s.procs, s.depth, c);
        StepUp(s.procs, s.depth, c, p);
      }
      WithoutNone(s.procs[q].children, Subtree(s, p) - {p});
    }
  }

  /** The rest of the tree is not half dead after a kill, and a parent that was told has a zombie to reap. */
  lemma KilledSettled(s: Sys, p: int, code: int)
    requires Sound(s) && p in s.procs && p != IDLE && !s.procs[p].state.Zombie?
    ensures p in ParentTold(s, p).procs && HasHome(ParentTold(s, p), p)
    ensures Kept(Killed(ParentTold(s, p), p, code)) && Settled(Killed(ParentTold(s, p), p, code).procs)
  {
    hide Move;
    ToldKept(s, p);
    var t := ParentTold(s, p);
    KilledKept(t, p, code);
    var r := Killed(t, p, code);
    RootOnly(t, p);
    forall q | q in r.procs
      ensures !r.procs[q].state.Dying? && ReapsZombie(r.procs, q)
    {
      KilledProcs(t, p, code, q);
      assert ReapsZombie(s.procs, q) && Branch(t.procs, t.depth, q);
      if q != p && t.procs[q].state.Sched? && t.procs[q].state.resume.ReapChild? {
        var z := t.procs[q].state.resume.child;
        assert Branch(t.procs, t.depth, z);
        StepUp(t.procs, t.depth, z, p);
        KilledProcs(t, p, code, z);
      }
    }
    KilledProcs(t, p, code, IDLE);
  }

  /** The process that process_internal_kill switches to when it kills the active process. */
  ghost function ExitNext(s: Sys, p: int): int
    requires Kept(s) && p in s.procs && s.procs[p].state.Sched?
  {
    ToldKept(s, p);
    InItsRing(ParentTold(s, p), p);
    if Awaited(s.procs, p) && s.procs[s.procs[p].parent].priority > s.procs[p].priority then s.procs[p].parent
    else NextOf(ParentTold(s, p).rings[s.procs[p].priority], p)
  }

  /** The system after the active process has exited. */
  ghost function Exited(s: Sys, code: int): Sys
    requires Kept(s) && s.active in s.procs && s.procs[s.active].state.Sched?
  {
    ToldKept(s, s.active);
    KilledKept(ParentTold(s, s.active), s.active, code);
    var r := Killed(ParentTold(s, s.active), s.active, code);
    KilledProcs(ParentTold(s, s.active), s.active, code, s.active);
    r.(active := Successor(r, ExitNext(s, s.active)))
  }

  /** The process that takes over from an exiting one is not among the descendants that die with it. */
  ghost predicate ExitSafe(s: Sys)
    requires Sound(s)
  {
    ExitNext(s, s.active) !in Subtree(s, s.active) - {s.active}
  }

  /** An exit leaves a sound system exactly when the chosen successor is not one of the descendants that die with it. */
  lemma ExitSound(s: Sys, code: int)
    requires Sound(s) && s.active != IDLE
    ensures Sound(Exited(s, code)) <==> ExitSafe(s)
  {
    hide Homed, Tree, Queued, SleepSorted, Settled, Killed, ParentTold;
    var p, t := s.active, ParentTold(s, s.active);
    ToldKept(s, p);
    KilledSettled(s, p, code);
    var r, next := Killed(t, p, code), ExitNext(s, p);
    KilledKept(t, p, code);
    if next in Subtree(s, p) - {p} {
      NobodyOnly(s);
      assert next in Parents(s.procs);
      assert Exited(s, code).active == next && next !in r.procs;
    } else {
      ExitChoice(s, code);
      KilledProcs(t, p, code, p);
      NobodyOnly(r);
      IdleReady(r.procs);
      SuccessorReady(r, next);
      ActiveOnly(r, Successor(r, next));
    }
  }

  /** The successor of an exiting process is ready, or its ring is empty now. */
  lemma ExitChoice(s: Sys, code: int)
    requires Sound(s) && s.active != IDLE && ExitNext(s, s.active) !in Subtree(s, s.active) - {s.active}
    ensures var p := s.active; HasHome(ParentTold(s, p), p)
    ensures var p, next := s.active, ExitNext(s, s.active);
        var r, k := Killed(ParentTold(s, p), p, code), s.procs[p].priority;
            if next == NOBODY then NoneAbove(r.rings, k - 1)
            else next in r.procs && r.procs[next].state.Sched? && NoneAbove(r.rings, r.procs[next].priority)
  {
    hide Tree, Queued, SleepSorted, Settled, Killed;
    var p, t := s.active, ParentTold(s, s.active);
    var a, k := s.procs[p].parent, s.procs[p].priority;
    ToldKept(s, p);
    InItsRing(t, p);
    AfterInRing(t.rings[k], p);
    KilledKept(t, p, code);
    ToldRings(s, p, k);
    var limit := if Awaited(s.procs, p) && s.procs[a].priority > k then s.procs[a].priority else k;
    KilledRings(t, p, code, limit);
    KilledRingOf(t, p, code, k);
    var next := ExitNext(s, p);
    if next != NOBODY {
      KilledProcs(t, p, code, next);
    } else {
      NobodyOnly(t);
    }
  }

  lemma ToldRings(s: Sys, p: int, k: int)
    requires Kept(s) && p in s.procs && NoneAbove(s.rings, k)
    ensures var a := s.procs[p].parent;
            NoneAbove(ParentTold(s, p).rings, if Awaited(s.procs, p) && s.procs[a].priority > k
                then s.procs[a].priority else k)
  {
    if Awaited(s.procs, p) {
      var a := s.procs[p].parent;
      assert HasHome(s, a);
      MoveRings(s, a, s.procs[a].(state := Sched(ReapChild(p))), k);
    }
  }

  /** When a process was alone in its ring, the ring is empty after it was killed. */
  lemma KilledRingOf(s: Sys, p: int, code: int, k: nat)
    requires Kept(s) && p in s.procs && HasHome(s, p) && s.procs[p].state.Sched? && s.procs[p].priority == k
    ensures k < |s.rings| && p in s.rings[k] && k < |Killed(s, p, code).rings|
    ensures NextOf(s.rings[k], p) == NOBODY ==> Killed(s, p, code).rings[k] == []
  {
    InItsRing(s, p);
    NobodyOnly(s);
    AfterInRing(s.rings[k], p);
    MoveLists(s, p, Detached(s.procs[p]), Nowhere);
    MoveLists(s, p, Detached(s.procs[p]), Ring(k));
  }

  lemma IdleReady(ps: Procs)
    requires Settled(ps)
    ensures IDLE in ps && ps[IDLE].state.Sched?
  {
  }

  /** No parent that outranks the active process waits for this one. */
  ghost predicate KillSafe(s: Sys, p: int)
    requires s.active in s.procs && p in s.procs
  {
    !(Awaited(s.procs, p) && s.procs[s.procs[p].parent].priority > s.procs[s.active].priority)
  }

  /** Killing another process, which does not switch, leaves a sound system exactly when no parent that outranks the
      active process was waiting for it. */
  lemma KillSound(s: Sys, p: int)
    requires Sound(s) && p in s.procs && p != IDLE && !s.procs[p].state.Zombie? && s.active !in Subtree(s, p)
    ensures Homed(s) && p in ParentTold(s, p).procs && HasHome(ParentTold(s, p), p)
    ensures Sound(Killed(ParentTold(s, p), p, 0)) <==> KillSafe(s, p)
  {
    hide Tree, Queued, SleepSorted, Settled, Killed;
    var t, a, k := ParentTold(s, p), s.procs[p].parent, s.procs[s.active].priority;
    ToldKept(s, p);
    KilledSettled(s, p, 0);
    KilledKept(t, p, 0);
    var r := Killed(t, p, 0);
    KilledProcs(t, p, 0, s.active);
    ToldRings(s, p, k);
    KilledRings(t, p, 0, if Awaited(s.procs, p) && s.procs[a].priority > k then s.procs[a].priority else k);
    if Awaited(s.procs, p) && s.procs[a].priority > k {
      ParentOutside(s, p);
      KilledProcs(t, p, 0, a);
      InItsRing(r, a);
      assert r.rings[r.procs[a].priority] != [];
    }
  }

  lemma ParentOutside(s: Sys, p: int)
    requires Kept(s) && p in s.procs && s.procs[p].parent in s.procs
    ensures s.procs[p].parent !in Subtree(s, p)
  {
    StrictClosed(s.procs, s.depth, p);
  }

  lemma ToldKillable(s: Sys, p: int)
    requires Kept(s) && NoneDying(s.procs) && p in s.procs && (s.active in Subtree(s, p) ==> Manned(s))
    ensures Killable(ParentTold(s, p), p)
  {
    ToldKept(s, p);
    if Awaited(s.procs, p) {
      ParentOutside(s, p);
    }
  }

  lemma SoundKillable(s: Sys, p: int)
    requires Sound(s) && p in s.procs
    ensures Killable(ParentTold(s, p), p)
  {
    IdleLast(s);
    ToldKillable(s, p);
  }

  /** Nobody is ready above the active process, idle included. */
  lemma IdleLast(s: Sys)
    requires Sound(s)
    ensures Manned(s)
  {
    InItsRing(s, IDLE);
  }

  /** There is always a process to switch to when the active one exits. */
  lemma ExitHasNext(s: Sys, code: int)
    requires Sound(s) && s.active != IDLE
    ensures var t := ParentTold(s, s.active); Kept(t) && s.active in t.procs && HasHome(t, s.active)
    ensures var r := Killed(ParentTold(s, s.active), s.active, code);
            && Kept(r) && r.active == s.active && s.active in r.procs && Successor(r, ExitNext(s, s.active)) != NOBODY
            && Exited(s, code) == r.(active := Successor(r, ExitNext(s, s.active)))
  {
    hide Successor, Killed, ParentTold, Homed, Tree, Queued, SleepSorted, Settled, NoneAbove, ExitNext;
    ToldKept(s, s.active);
    var t := ParentTold(s, s.active);
    KilledKept(t, s.active, code);
    KilledProcs(t, s.active, code, s.active);
    NextIsSuccessor(Killed(t, s.active, code), ExitNext(s, s.active));
    NobodyOnly(s);
    ExitSound(s, code);
    if Sound(Exited(s, code)) {
      NobodyOnly(Exited(s, code));
    } else {
      assert ExitNext(s, s.active) in Parents(s.procs);
    }
  }

  lemma NextIsSuccessor(s: Sys, next: int)
    requires Homed(s) && s.active in s.procs
    ensures next != NOBODY ==> Successor(s, next) == next
  {
  }

  lemma ToldActive(s: Sys, p: int)
    requires Kept(s) && ActiveReady(s) && p in s.procs
    ensures Kept(ParentTold(s, p)) && s.active in ParentTold(s, p).procs
    ensures ParentTold(s, p).procs[s.active] == s.procs[s.active]
    ensures s.procs[s.active].state.Sched?
  {
    ToldKept(s, p);
  }

  /** The parent was told, and the process killed. */
  ghost predicate AfterKill(s: Sys, p: int, code: int, r: Sys) {
    && Kept(s) && p in s.procs && Kept(ParentTold(s, p)) && p in ParentTold(s, p).procs && HasHome(ParentTold(s, p), p)
    && Kept(r) && r == Killed(ParentTold(s, p), p, code)
  }

  lemma StrictExcludes(s: Sys, p: int)
    ensures p !in Subtree(s, p) - {p}
  {
  }

  lemma ExitSteps(s: Sys, code: int, r: Sys)
    requires Sound(s) && s.active != IDLE && AfterKill(s, s.active, code, r)
    ensures Homed(r) && r.active in r.procs && Successor(r, ExitNext(s, s.active)) != NOBODY
    ensures Exited(s, code) == r.(active := Successor(r, ExitNext(s, s.active)))
  {
    ExitHasNext(s, code);
  }

  lemma KillEffect(s: Sys, p: int, r: Sys)
    requires Sound(s) && p in s.procs && p != IDLE && !s.procs[p].state.Zombie? && s.active !in Subtree(s, p) - {p}
    requires p != s.active
    requires AfterKill(s, p, 0, r)
    ensures s.active !in Subtree(s, p) && (Sound(r) <==> KillSafe(s, p))
  {
    KillSound(s, p);
  }

  // ----- waiting for children -----

  /** The first child in the list that a wait for this pid (negative for any zombie) accepts; NOBODY when there is
      none. */
  function FirstChild(ps: Procs, l: seq<int>, pid: int): int {
    if l == [] then NOBODY
    else if (pid < 0 && l[0] in ps && ps[l[0]].state.Zombie?) || pid == l[0] then l[0]
    else FirstChild(ps, l[1..], pid)
  }

  lemma {:induction false} FirstChildIs(ps: Procs, l: seq<int>, pid: int)
    requires NOBODY !in l
    ensures var c := FirstChild(ps, l, pid);
            if c == NOBODY then forall x :: x in l ==> x != pid && (pid < 0 ==> x !in ps || !ps[x].state.Zombie?)
            else c in l && (c == pid || (pid < 0 && c in ps && ps[c].state.Zombie?)) && NoneAhead(ps, l, pid, c)
  {
    if l != [] {
      var first := l[0];
      assert l == [first] + l[1..] && first in l;
      FirstChildIs(ps, l[1..], pid);
      var c := FirstChild(ps, l, pid);
      if c == first {
        assert Ahead(ps, l, pid, c, 0);
      } else if c != NOBODY {
        var i :| Ahead(ps, l[1..], pid, c, i);
        assert Ahead(ps, l, pid, c, i + 1);
      }
    }
  }

  /** It is the first child in the list that the wait accepts. */
  ghost predicate NoneAhead(ps: Procs, l: seq<int>, pid: int, c: int) { exists i :: Ahead(ps, l, pid, c, i) }

  ghost predicate Ahead(ps: Procs, l: seq<int>, pid: int, c: int, i: int) {
    && 0 <= i < |l| && l[i] == c
    && forall j :: 0 <= j < i ==> l[j] != pid && (pid < 0 ==> l[j] !in ps || !ps[l[j]].state.Zombie?)
  }

  /** The active process is back in user code. */
  ghost function Quiet(s: Sys): Sys
    requires s.active in s.procs
  {
    s.(procs := s.procs[s.active := s.procs[s.active].(state := Sched(Nothing))])
  }

  lemma QuietKept(s: Sys)
    requires Kept(s) && s.active in s.procs && s.procs[s.active].state.Sched?
    ensures Kept(Quiet(s))
  {
    var s', pc := Quiet(s), s.procs[s.active].(state := Sched(Nothing));
    assert HasHome(s, s.active);
    RecordHomed(s, s.active, pc);
    MoveTree(s.procs, s.depth, s.active, pc);
    assert Houses(s, Asleep);
    forall q, p | q in s.queues && p in s.queues[q].waiters && p in s.procs
      ensures s'.procs[p].state == s.procs[p].state
    {
      assert Houses(s, InQueue(q));
    }
    QueuedSame(s, s');
    SortedSame(s.procs, s'.procs, s.sleepers);
  }

  lemma QuietSound(s: Sys)
    requires Sound(s)
    ensures Sound(Quiet(s))
  {
    QuietKept(s);
    var s' := Quiet(s);
    forall p | p in s'.procs
      ensures ReapsZombie(s'.procs, p)
    {
      assert ReapsZombie(s.procs, p);
    }
  }

  /** Only the parent of a zombie can be about to reap it. */
  lemma NotClaimed(s: Sys, c: int)
    requires Tree(s.procs, s.depth) && c in s.procs && s.procs[c].parent in s.procs
    requires !(s.procs[s.procs[c].parent].state.Sched? && s.procs[s.procs[c].parent].state.resume == ReapChild(c))
    ensures c != IDLE && Unclaimed(s.procs, c)
  {
    assert Branch(s.procs, s.depth, c);
    forall q | q in s.procs && s.procs[q].state.Sched?
      ensures s.procs[q].state.resume != ReapChild(c)
    {
      assert Branch(s.procs, s.depth, q);
    }
  }

  /** The active process reaps a zombie child. */
  lemma ReapSound(s: Sys, c: int)
    requires Sound(s) && c in s.procs && s.procs[c].state.Zombie? && s.procs[c].parent == s.active
    requires s.procs[s.active].state == Sched(Nothing)
    ensures c != IDLE && Unclaimed(s.procs, c) && Sound(Freed(s, c))
  {
    assert Branch(s.procs, s.depth, c);
    NotClaimed(s, c);
    FreedKept(s, c);
    ReapSettled(s, c);
  }

  lemma ReapSettled(s: Sys, c: int)
    requires Kept(s) && Settled(s.procs) && c in s.procs && s.procs[c].state.Zombie? && Unclaimed(s.procs, c)
    ensures Settled(Freed(s, c).procs)
  {
    var ps' := Freed(s, c).procs;
    forall p | p in ps'
      ensures ReapsZombie(ps', p)
    {
      assert ReapsZombie(s.procs, p);
    }
  }
}
