/** How far a kill gets: through the whole subtree, to a walk that never ends, or to the active process, where it
    switches away for good. */
module ProcessSwitch {
  import opened Lists
  import opened Processes
  import opened ProcessTree
  import opened SleepWalks
  import opened ProcessOrder
  import opened ProcessState
  import opened ProcessSteps
  import opened ProcessDeath

  ghost function ReachedBy(s: Sys, p: int): seq<int>
    requires Tree(s.procs, s.depth) && p in s.procs
  {
    Reached(s.procs, s.depth, p, s.active)
  }

  ghost function ReachedUnder(s: Sys, p: int): seq<int>
    requires Tree(s.procs, s.depth) && p in s.procs
  {
    ReachedOf(s.procs, s.depth, p, s.procs[p].children, s.active)
  }

  /** What a kill has still to do in the middle: the walks that are left end exactly when all do, and what it reaches
      is what it has reached and what the children that are left add. */
  ghost predicate OnWay(s: Sys, p: int, k: set<int>, t: Sys) {
    && Tree(s.procs, s.depth) && Tree(t.procs, t.depth) && p in s.procs && p in t.procs
    && (WalksEnd(s, p) <==> ChildWalksEnd(t, p))
    && forall x :: x in ReachedBy(s, p) <==> x == p || x in k || x in ReachedUnder(t, p)
  }

  lemma AllSame(ps: Procs, ps': Procs, depth: Depths)
    requires Tree(ps, depth) && ps'.Keys == ps.Keys && forall x :: x in ps ==> ps'[x].children == ps[x].children
    ensures SameBelow(ps, ps', ps.Keys)
  {
    forall x | x in ps
      ensures forall c :: c in ps[x].children ==> c in ps
    {
      assert Branch(ps, depth, x);
    }
  }

  /** The walk for the process itself ends when it does not sleep or is the first sleeper. */
  predicate OwnWalkEnds(s: Sys, p: int)
    requires p in s.procs
  {
    s.procs[p].state.WaitTime? ==> RemovesAtHead(s.sleepers, p)
  }

  lemma OnWayBegins(s: Sys, p: int)
    requires Kept(s) && p in s.procs && HasHome(s, p) && Kept(Detach(s, p)) && p in Detach(s, p).procs
    ensures !OwnWalkEnds(s, p) ==> !WalksEnd(s, p)
    ensures OwnWalkEnds(s, p) ==> OnWay(s, p, {}, Detach(s, p))
  {
    hide Homed, Tree, Queued, ConsoleOk, SleepSorted, Detach, ReachedOf, SleepersOf;
    UnderDetached(s, p);
    DetachFacts(s, p);
    DetachedSleepers(s, p);
    FirstSleeper(s.procs, p, ReachedUnder(s, p), s.sleepers);
  }

  lemma FirstSleeper(ps: Procs, p: int, l: seq<int>, sleepers: seq<int>)
    requires p in ps && (ps[p].state.WaitTime? <==> p in sleepers)
    ensures SleepersOf(ps, [p] + l) <= sleepers <==>
              (ps[p].state.WaitTime? ==> RemovesAtHead(sleepers, p)) && SleepersOf(ps, l) <= Remove(sleepers, p)
  {
    assert ([p] + l)[1..] == l;
    var rest := SleepersOf(ps, l);
    if ps[p].state.WaitTime? && sleepers[0] == p {
      assert sleepers == [p] + sleepers[1..];
      assert [p] + rest <= sleepers <==> rest <= sleepers[1..];
    }
  }

  lemma UnderDetached(s: Sys, p: int)
    requires Kept(s) && p in s.procs && HasHome(s, p) && Kept(Detach(s, p)) && p in Detach(s, p).procs
    ensures ReachedUnder(Detach(s, p), p) == ReachedUnder(s, p)
    ensures SleepersOf(Detach(s, p).procs, ReachedUnder(s, p)) == SleepersOf(s.procs, ReachedUnder(s, p))
  {
    DetachFacts(s, p);
    hide Homed, Queued, SleepSorted, Detach, Reached, ReachedOf, SleepersOf;
    var t := Detach(s, p);
    AllSame(s.procs, t.procs, s.depth);
    ReachedOfSame(s.procs, t.procs, s.depth, t.depth, s.procs.Keys, p, s.procs[p].children, s.active);
    ReachedOfBelow(s.procs, s.depth, p, s.procs[p].children, s.active);
    SleepersSame(s.procs, t.procs, ReachedUnder(s, p));
  }

  lemma DetachedSleepers(s: Sys, p: int)
    requires Homed(s) && p in s.procs && HasHome(s, p)
    ensures Detach(s, p).sleepers == Remove(s.sleepers, p)
    ensures s.procs[p].state.WaitTime? <==> p in s.sleepers
  {
    MoveLists(s, p, Detached(s.procs[p]), Asleep);
    assert Houses(s, Asleep);
    assert p in s.sleepers <==> p in List(s, Asleep);
  }

  /** A child and its subtree are gone: the walks and the processes that are left are those of the other children. */
  lemma OnWayNext(t: Sys, p: int, c: int, u: Sys)
    requires Kept(t) && p in t.procs && t.procs[p].children != [] && c == t.procs[p].children[0] && c in t.procs
    requires t.active !in Subtree(t, c) && WalksEnd(t, c) && u == Prune(t, Subtree(t, c)) && Kept(u) && p in u.procs
    ensures ChildWalksEnd(t, p) <==> ChildWalksEnd(u, p)
    ensures forall x :: x in ReachedUnder(t, p) <==> x in Subtree(t, c) || x in ReachedUnder(u, p)
  {
    var d, r, rest := Subtree(t, c), ReachedBy(t, c), ReachedUnder(u, p);
    ReachedMembers(t.procs, t.depth, c, t.active);
    OthersReached(t, p, c, u);
    SleepersJoin(t.procs, r, rest);
    SleepersMembers(t.procs, r);
    SleepersHoused(t);
    SleepersCut(t, SleepersOf(t.procs, r), d);
    assert u.sleepers == Without(t.sleepers, d);
    hide Kept, Prune, Reached, ReachedOf, SleepersOf, Subtree;
    PrefixRest(t.sleepers, SleepersOf(t.procs, r), SleepersOf(t.procs, rest));
  }

  lemma PrefixRest(l: seq<int>, a: seq<int>, b: seq<int>)
    requires a <= l
    ensures a + b <= l <==> b <= l[|a|..]
  {
    assert l == a + l[|a|..];
  }

  lemma OthersReached(t: Sys, p: int, c: int, u: Sys)
    requires Kept(t) && p in t.procs && t.procs[p].children != [] && c == t.procs[p].children[0] && c in t.procs
    requires t.active !in ReachedBy(t, c) && u == Prune(t, Subtree(t, c)) && Kept(u) && p in u.procs
    ensures ReachedUnder(t, p) == ReachedBy(t, c) + ReachedUnder(u, p)
    ensures SleepersOf(u.procs, ReachedUnder(u, p)) == SleepersOf(t.procs, ReachedUnder(u, p))
  {
    hide Homed, Queued, SleepSorted, SleepersOf;
    var d, l := Subtree(t, c), t.procs[p].children;
    OthersSame(t, p, c);
    ReachedOfSame(t.procs, u.procs, t.depth, u.depth, Subtree(t, p) - {p} - d, p, l[1..], t.active);
    ReachedOfBelow(u.procs, u.depth, p, l[1..], t.active);
    SleepersSame(t.procs, u.procs, ReachedUnder(u, p));
  }

  /** The first children's sleepers were at the front of the list, and are all that goes. */
  lemma SleepersCut(t: Sys, a: seq<int>, d: set<int>)
    requires Houses(t, Asleep) && a <= t.sleepers
    requires forall x :: x in a <==> x in d && x in t.procs && t.procs[x].state.WaitTime?
    ensures Without(t.sleepers, d) == t.sleepers[|a|..]
  {
    var b := t.sleepers[|a|..];
    assert t.sleepers == a + b;
    forall x | x in b
      ensures x !in d
    {
      var j :| 0 <= j < |b| && b[j] == x;
      assert t.sleepers[|a| + j] == x && x in List(t, Asleep);
      assert x !in a;
    }
    forall x | x in a
      ensures x in d
    {
    }
    WithoutFront(a, b, d);
  }

  /** Taking out the subtree of the first child does not change the others. */
  lemma OthersSame(t: Sys, p: int, c: int)
    requires Kept(t) && p in t.procs && t.procs[p].children != [] && c == t.procs[p].children[0] && c in t.procs
    ensures var d, u, l := Subtree(t, c), Prune(t, Subtree(t, c)), t.procs[p].children;
            && p in u.procs && u.procs[p].children == l[1..] && SameBelow(t.procs, u.procs, Subtree(t, p) - {p} - d)
            && (forall x :: x in l[1..] ==> x in l && x in Subtree(t, p) - {p} - d)
  {
    var d, u, l := Subtree(t, c), Prune(t, Subtree(t, c)), t.procs[p].children;
    BelowChild(t.procs, t.depth, p, c);
    StrictClosed(t.procs, t.depth, c);
    assert Branch(t.procs, t.depth, p);
    forall x | x in l[1..]
      ensures x in l && x in Subtree(t, p) - {p} - d
    {
      BelowChild(t.procs, t.depth, p, x);
      ChildOf(t.procs, t.depth, p, x);
      StepUp(t.procs, t.depth, x, c);
    }
    WithoutNone(l[1..], d);
    forall x | x in Subtree(t, p) - {p} - d
      ensures x in t.procs && x in u.procs && u.procs[x].children == t.procs[x].children
      ensures forall y :: y in t.procs[x].children ==> y in Subtree(t, p) - {p} - d
    {
      forall y | y in t.procs[x].children
        ensures y in Subtree(t, p) - {p} - d
      {
        ChildOf(t.procs, t.depth, x, y);
        StrictClosed(t.procs, t.depth, p);
        StepUp(t.procs, t.depth, y, c);
        ChildOf(t.procs, t.depth, p, c);
      }
      WithoutNone(t.procs[x].children, d);
    }
  }

  /** The first child's walks do not all end, so the rest do not matter. */
  lemma OnWayHangs(t: Sys, p: int, c: int)
    requires Kept(t) && p in t.procs && t.procs[p].children != [] && c == t.procs[p].children[0] && c in t.procs
    ensures !WalksEnd(t, c) ==> !ChildWalksEnd(t, p)
  {
    var r, rest := ReachedBy(t, c), ReachedOf(t.procs, t.depth, p, t.procs[p].children[1..], t.active);
    SleepersJoin(t.procs, r, rest);
    var a, b := SleepersOf(t.procs, r), SleepersOf(t.procs, rest);
    if a + b <= t.sleepers {
      assert a == t.sleepers[..|a|];
    }
  }

  /** The active process is under the first child: nothing else is reached. */
  lemma OnWaySwitches(t: Sys, p: int, c: int)
    requires Kept(t) && p in t.procs && t.procs[p].children != [] && c == t.procs[p].children[0] && c in t.procs
    requires t.active in Subtree(t, c)
    ensures ReachedUnder(t, p) == ReachedBy(t, c) && (WalksEnd(t, c) <==> ChildWalksEnd(t, p))
  {
    ReachedMembers(t.procs, t.depth, c, t.active);
  }

  // ----- switching away in the middle -----

  /** The processes that a kill of p has freed when it switches away: all that it reached, except the active one and
      those between p and it. */
  ghost function Gone(s: Sys, p: int): set<int>
    requires Tree(s.procs, s.depth) && p in s.procs
  {
    set x | x in ReachedBy(s, p) && s.active !in Subtree(s, x)
  }

  /** What a kill of p that switched away has made of a process: one that it did not reach is as it was; the active
      process is a childless zombie; those between p and it are half dead and have lost the children that were freed;
      all others that it reached are gone. */
  ghost predicate LeftAs(s: Sys, p: int, s': Sys, x: int)
    requires Tree(s.procs, s.depth) && p in s.procs && x in s.procs
  {
    if x !in ReachedBy(s, p) then x in s'.procs && s'.procs[x] == s.procs[x]
    else if x == s.active then x in s'.procs && s'.procs[x] == s.procs[x].(state := Zombie(0), children := [])
    else if s.active in Subtree(s, x) then
      && x in s'.procs
      && s'.procs[x] == Detached(s.procs[x]).(children := Without(s.procs[x].children, Gone(s, p)))
    else x !in s'.procs
  }

  /** Some processes have left all lists, in which the others keep their order; nothing else differs, the records and
      the active process aside. */
  ghost predicate OutOfLists(s: Sys, k: set<int>, s': Sys) {
    s' == s.(procs := s'.procs, active := s'.active, rings := PruneRings(s.rings, k),
        queues := PruneQueues(s.queues, k),
             cons := Without(s.cons, k), sleepers := Without(s.sleepers, k))
  }

  ghost function ReachedSet(s: Sys, p: int): set<int>
    requires Tree(s.procs, s.depth) && p in s.procs
  {
    set x | x in ReachedBy(s, p)
  }

  /** The processes that a kill of p has taken out of their lists before it takes out the active one. */
  ghost function BeforeActive(s: Sys, p: int): set<int>
    requires Tree(s.procs, s.depth) && p in s.procs
  {
    set x | x in ReachedBy(s, p) && x !in Subtree(s, s.active)
  }

  /** The processor goes to the next process in the ring of the active one, without some that have left it before;
      when there is none, to the head of the highest ring below. */
  ghost predicate SwitchedTo(s: Sys, before: set<int>, s': Sys) {
    && s.active in s.procs && s.procs[s.active].state.Sched?
    && var k := s.procs[s.active].priority;
    && 0 <= k < |s.rings| && k <= |s'.rings|
    && var ring := Without(s.rings[k], before);
    && s.active in ring
    && s'.active == if NextOf(ring, s.active) != NOBODY then NextOf(ring, s.active) else HighestBelow(s'.rings, k)
  }

  /** A kill of p reached the active process, which died, and the processor was given away. */
  ghost predicate SwitchedAway(s: Sys, p: int, s': Sys) {
    && Tree(s.procs, s.depth) && p in s.procs && Kept(s') && s'.procs.Keys <= s.procs.Keys
    && (forall x {:trigger LeftAs(s, p, s', x)} :: x in s.procs ==> LeftAs(s, p, s', x))
    && OutOfLists(s, ReachedSet(s, p), s')
    && SwitchedTo(s, BeforeActive(s, p), s')
  }

  /** There is a process to switch to when the active one was killed: idle at least. */
  lemma KilledHasNext(s: Sys, code: int)
    requires Kept(s) && s.active in s.procs && s.active != IDLE && Killable(s, s.active)
    ensures HasHome(s, s.active)
    ensures var p, r, k := s.active, Killed(s, s.active, code), s.procs[s.active].priority;
            && Kept(r) && p in r.procs && r.procs[p].state == Zombie(code) && r.active == p && r.procs[p].priority == k
            && 0 <= k < |s.rings| && p in s.rings[k] && k <= |r.rings| && s.procs[p].state.Sched?
            && Successor(r, NextOf(s.rings[k], p)) != NOBODY
  {
    hide Queued, SleepSorted, Killed;
    var p := s.active;
    KillableAt(s, p);
    var k := s.procs[p].priority;
    InItsRing(s, p);
    InItsRing(s, IDLE);
    AfterInRing(s.rings[k], p);
    RootOnly(s, p);
    KilledKept(s, p, code);
    KilledProcs(s, p, code, p);
    KilledProcs(s, p, code, IDLE);
    NobodyOnly(Killed(s, p, code));
    SearchFails(Killed(s, p, code), k);
    if NextOf(s.rings[k], p) == NOBODY {
      NobodyOnly(s);
      assert IDLE !in s.rings[k];
    }
  }

  /** The active process itself was killed by the recursion. */
  lemma SwitchHere(s: Sys)
    requires Kept(s) && s.active in s.procs && s.active != IDLE && Killable(s, s.active)
    ensures HasHome(s, s.active)
    ensures var r, k := Killed(s, s.active, 0), s.procs[s.active].priority;
            && 0 <= k < |s.rings| && s.active in s.rings[k] && Homed(r) && r.active in r.procs
            && r.procs.Keys <= s.procs.Keys
            && Successor(r, NextOf(s.rings[k], s.active)) != NOBODY
            && SwitchedAway(s, s.active, r.(active := Successor(r, NextOf(s.rings[k], s.active))))
  {
    KilledHasNext(s, 0);
    KilledKept(s, s.active, 0);
    hide Homed, Queued, SleepSorted, Killed, Reached, Killable, Successor, NextOf, Subtree;
    var p, k := s.active, s.procs[s.active].priority;
    var r := Killed(s, p, 0);
    var s' := r.(active := Successor(r, NextOf(s.rings[k], p)));
    ActiveOnly(r, s'.active);
    forall x | x in s.procs
      ensures LeftAs(s, p, s', x)
    {
      HereAs(s, s', x);
    }
    NothingBefore(s);
    WithoutNone(s.rings[k], {});
    SuccessorOf(r, NextOf(s.rings[k], p));
    KilledLists(s, p, 0);
    ReachedIsSubtree(s);
  }

  lemma ReachedIsSubtree(s: Sys)
    requires Tree(s.procs, s.depth) && s.active in s.procs
    ensures ReachedSet(s, s.active) == Subtree(s, s.active)
  {
    ReachedMembers(s.procs, s.depth, s.active, s.active);
    forall x
      ensures x in ReachedSet(s, s.active) <==> x in Subtree(s, s.active)
    {
      assert x in ReachedBy(s, s.active) <==> x in Subtree(s, s.active);
    }
  }

  /** Detaching a process takes it out of all lists. */
  lemma DetachedLists(s: Sys, p: int)
    requires Kept(s) && p in s.procs && HasHome(s, p)
    ensures OutOfLists(s, {p}, Detach(s, p))
  {
    var t := Detach(s, p);
    MoveFields(s, p, Detached(s.procs[p]));
    MoveLists(s, p, Detached(s.procs[p]), Nowhere);
    forall i | 0 <= i < |s.rings|
      ensures t.rings[i] == PruneRings(s.rings, {p})[i]
    {
      DetachedList(s, p, Ring(i));
    }
    assert t.rings == PruneRings(s.rings, {p});
    forall q | q in s.queues
      ensures t.queues[q] == PruneQueues(s.queues, {p})[q]
    {
      DetachedList(s, p, InQueue(q));
    }
    assert t.queues == PruneQueues(s.queues, {p});
    DetachedList(s, p, OnConsole);
    DetachedList(s, p, Asleep);
  }

  lemma DetachedList(s: Sys, p: int, h: Home)
    requires Homed(s) && p in s.procs && HasHome(s, p) && HasList(s, h)
    ensures HasList(Detach(s, p), h) && List(Detach(s, p), h) == Without(List(s, h), {p})
  {
    MoveLists(s, p, Detached(s.procs[p]), h);
    assert Houses(s, h);
    WithoutOne(List(s, h), p);
    if p !in List(s, h) {
      WithoutNone(List(s, h), {p});
    }
  }

  /** Leaving the lists in two steps. */
  lemma OutTwice(s: Sys, j: set<int>, t: Sys, k: set<int>, u: Sys)
    requires OutOfLists(s, j, t) && OutOfLists(t, k, u)
    ensures OutOfLists(s, j + k, u)
  {
    PruneQueuesTwice(s.queues, j, k);
    forall i | 0 <= i < |s.rings|
      ensures u.rings[i] == PruneRings(s.rings, j + k)[i]
    {
      WithoutTwice(s.rings[i], j, k);
    }
    assert u.rings == PruneRings(s.rings, j + k);
    WithoutTwice(s.cons, j, k);
    WithoutTwice(s.sleepers, j, k);
  }

  lemma KilledLists(s: Sys, p: int, code: int)
    requires Kept(s) && p in s.procs && HasHome(s, p)
    ensures OutOfLists(s, Subtree(s, p), Killed(s, p, code))
  {
    hide Kept, Detach, OutOfLists;
    DetachFacts(s, p);
    DetachedLists(s, p);
    var s1, d := Detach(s, p), Subtree(s, p) - {p};
    KilledIs(s, p, code);
    StrictExcludes(s, p);
    assert p in Subtree(s, p) by {
      SelfBelow(s, p);
    }
    OutTwice(s, {p}, s1, d, Killed(s, p, code));
    assert {p} + d == Subtree(s, p);
  }

  lemma SelfBelow(s: Sys, p: int)
    requires p in s.procs
    ensures p in Subtree(s, p)
  {
  }

  lemma KilledIs(s: Sys, p: int, code: int)
    requires p in s.procs && HasHome(s, p)
    ensures OutOfLists(Detach(s, p), Subtree(s, p) - {p}, Killed(s, p, code))
  {
    MoveLists(s, p, Detached(s.procs[p]), Nowhere);
  }

  lemma SuccessorOf(s: Sys, next: int)
    requires Homed(s) && s.active in s.procs && !s.procs[s.active].state.Sched?
    ensures HasHome(s, s.active) && 0 <= s.procs[s.active].priority <= |s.rings|
    ensures Successor(s, next) == if next != NOBODY then next else HighestBelow(s.rings, s.procs[s.active].priority)
  {
    assert HasHome(s, s.active);
  }

  lemma NothingBefore(s: Sys)
    requires Tree(s.procs, s.depth) && s.active in s.procs
    ensures BeforeActive(s, s.active) == {}
  {
    ReachedBelow(s.procs, s.depth, s.active, s.active);
    forall x | x in ReachedBy(s, s.active)
      ensures x in Subtree(s, s.active)
    {
    }
  }

  lemma HereAs(s: Sys, s': Sys, x: int)
    requires Kept(s) && s.active in s.procs && HasHome(s, s.active) && s'.procs == Killed(s, s.active, 0).procs
    requires x in s.procs
    ensures LeftAs(s, s.active, s', x)
  {
    hide Homed, Queued, SleepSorted, Killed, Reached;
    var p := s.active;
    KilledKept(s, p, 0);
    ReachedMembers(s.procs, s.depth, p, p);
    if x !in Subtree(s, p) - {p} {
      KilledProcs(s, p, 0, x);
    } else {
      assert Branch(s.procs, s.depth, x) && Branch(s.procs, s.depth, p);
      AncestorDeeper(Parents(s.procs), s.depth, x, p);
      if p in Subtree(s, x) {
        AncestorDeeper(Parents(s.procs), s.depth, p, x);
      }
    }
  }

  // ----- from a child to its parent -----

  lemma {:induction false} AncestorLess(par: map<int, int>, part: map<int, int>, depth: Depths, k: set<int>, x: int,
      a: int)
    requires Ancestor(par, depth, x, a) && part == par - k && x !in k && forall y :: y in par && par[y] in k ==> y in k
    ensures Ancestor(part, depth, x, a)
    decreases if x in depth then depth[x] else 0
  {
    if x != a {
      AncestorLess(par, part, depth, k, par[x], a);
    }
  }

  /** Who is below a member of a set that holds the children of its members is in the set. */
  lemma {:induction false} BelowInside(par: map<int, int>, depth: Depths, k: set<int>, x: int, a: int)
    requires Ancestor(par, depth, x, a) && a in k && forall y :: y in par && par[y] in k ==> y in k
    ensures x in k
    decreases if x in depth then depth[x] else 0
  {
    if x != a {
      BelowInside(par, depth, k, par[x], a);
    }
  }

  /** The system in the middle of a kill, seen from a process that is still there. */
  lemma MidKill(s: Sys, p: int, k: set<int>, t: Sys, x: int)
    requires InKill(s, p, k, t) && x in s.procs
    ensures x in t.procs <==> x !in k
    ensures x in t.procs ==> t.procs[x].parent == s.procs[x].parent && t.procs[x].priority == s.procs[x].priority
    ensures x in t.procs && x != p ==> t.procs[x] == s.procs[x]
    ensures p in s.procs && p in t.procs && t.procs[p].state == Dying(s.procs[p].state)
    ensures p !in k && t.procs.Keys <= s.procs.Keys && t.depth == s.depth
  {
    DetachFacts(s, p);
    if x in t.procs && x != p {
      forall c | c in s.procs[x].children
        ensures c !in k
      {
        ChildOf(s.procs, s.depth, x, c);
      }
      WithoutNone(s.procs[x].children, k);
    }
  }

  lemma MidParents(s: Sys, p: int, k: set<int>, t: Sys)
    requires InKill(s, p, k, t)
    ensures Parents(t.procs) == Parents(s.procs) - k && t.depth == s.depth
    ensures forall y :: y in Parents(s.procs) && Parents(s.procs)[y] in k ==> y in k
  {
    DetachFacts(s, p);
    hide Kept, Detach, Killable;
    var s1 := Detach(s, p);
    PruneParents(s1.procs, k);
    assert Parents(s1.procs) == Parents(s.procs);
    assert forall y :: y in s1.procs ==> s1.procs[y].parent == Parents(s.procs)[y];
  }

  /** Subtrees of processes that are still there, as far as they are still there, and of those that are gone. */
  lemma MidSubtree(s: Sys, p: int, k: set<int>, t: Sys, x: int, a: int)
    requires InKill(s, p, k, t) && x in s.procs && a in t.procs
    ensures x in t.procs ==> (a in Subtree(t, x) <==> a in Subtree(s, x))
    ensures x in k ==> a !in Subtree(s, x)
  {
    MidParents(s, p, k, t);
    var par, part := Parents(s.procs), Parents(t.procs);
    if a in Subtree(s, x) {
      if x in k {
        BelowInside(par, s.depth, k, a, x);
      }
      AncestorLess(par, part, s.depth, k, a, x);
    }
    if a in Subtree(t, x) {
      AncestorMore(par, part, s.depth, a, x);
    }
  }

  /** The rings in the middle of a kill. */
  lemma MidRing(s: Sys, p: int, k: set<int>, t: Sys, j: nat)
    requires InKill(s, p, k, t) && j < |s.rings|
    ensures j < |t.rings| && t.rings[j] == Without(s.rings[j], {p} + k)
  {
    MoveLists(s, p, Detached(s.procs[p]), Ring(j));
    assert Houses(s, Ring(j));
    WithoutOne(s.rings[j], p);
    WithoutTwice(s.rings[j], {p}, k);
    if p !in s.rings[j] {
      WithoutNone(s.rings[j], {p});
    }
  }

  /** In the middle of a kill of p, the active process is in the subtree of its child c, the next one to be killed. */
  ghost predicate ActiveUnder(s: Sys, p: int, k: set<int>, t: Sys, c: int) {
    && InKill(s, p, k, t) && OnWay(s, p, k, t) && c in t.procs && ReachedUnder(t, p) == ReachedBy(t, c)
    && s.active in Subtree(t, c) && p !in Subtree(t, c)
  }

  lemma LeftUp(s: Sys, p: int, k: set<int>, t: Sys, c: int, s': Sys, x: int)
    requires ActiveUnder(s, p, k, t, c) && SwitchedAway(t, c, s') && x in s.procs
    ensures LeftAs(s, p, s', x)
  {
    hide Kept, Detach, Killable, Reached, ReachedOf, Subtree, PartOf, SwitchedTo, OutOfLists, Gone;
    MidKill(s, p, k, t, x);
    MidBelow(s, p, k, t, c);
    MidSubtree(s, p, k, t, x, s.active);
    SetsUp(s, p, k, t, c);
    if x in t.procs {
      assert LeftAs(t, c, s', x);
      MidChildren(s, p, k, t, x);
      WithoutTwice(s.procs[x].children, k, Gone(t, c));
    }
    ChildrenStay(s, p, k, t, c);
  }

  lemma MidChildren(s: Sys, p: int, k: set<int>, t: Sys, x: int)
    requires InKill(s, p, k, t) && x in t.procs
    ensures x in s.procs && t.procs[x].children == Without(s.procs[x].children, k)
  {
    DetachFacts(s, p);
  }

  /** The target itself is not under its child: it keeps the children that are left, without those that were freed. */
  lemma ChildrenStay(s: Sys, p: int, k: set<int>, t: Sys, c: int)
    requires ActiveUnder(s, p, k, t, c)
    ensures Tree(t.procs, t.depth) && p in t.procs && Without(t.procs[p].children, Gone(t, c)) == t.procs[p].children
  {
    hide ActiveUnder, Tree, Subtree;
    UnderTrees(s, p, k, t, c);
    forall y | y in t.procs[p].children
      ensures y !in Gone(t, c)
    {
      ChildStays(s, p, k, t, c, y);
    }
    WithoutNone(t.procs[p].children, Gone(t, c));
  }

  lemma ChildStays(s: Sys, p: int, k: set<int>, t: Sys, c: int, y: int)
    requires ActiveUnder(s, p, k, t, c) && p in t.procs && y in t.procs[p].children
    ensures y in ReachedBy(t, c) ==> t.active in Subtree(t, y)
  {
    KeptHomed(t);
    ReachedBelow(t.procs, t.depth, c, t.active);
    ChildOf(t.procs, t.depth, p, y);
    StepUp(t.procs, t.depth, y, c);
  }

  /** The active process is under a child: it is under p too, it is reached, and p is not under the child. */
  lemma MidBelow(s: Sys, p: int, k: set<int>, t: Sys, c: int)
    requires ActiveUnder(s, p, k, t, c)
    ensures s.active in t.procs && s.active != p && s.active in ReachedBy(t, c) && p !in ReachedBy(t, c)
    ensures s.active in Subtree(s, p) && s.active in s.procs && s.active in ReachedBy(s, p)
  {
    ReachedMembers(t.procs, t.depth, c, t.active);
    ReachedBelow(t.procs, t.depth, c, t.active);
    ReachedBelow(s.procs, s.depth, p, s.active);
  }

  lemma SwitchUp(s: Sys, p: int, k: set<int>, t: Sys, c: int, s': Sys)
    requires InKill(s, p, k, t) && OnWay(s, p, k, t) && t.procs[p].children != [] && c == t.procs[p].children[0]
    requires c in t.procs
    requires s.active in Subtree(t, c) && SwitchedAway(t, c, s')
    ensures SwitchedAway(s, p, s') && s.active in Subtree(s, p) - {p}
  {
    hide ActiveUnder, InKill, OnWay, Kept, Tree, Subtree, ReachedBy, BeforeActive, SwitchedTo, LeftAs;
    UnderBegins(s, p, k, t, c);
    UnderTrees(s, p, k, t, c);
    MidBelow(s, p, k, t, c);
    forall x | x in s.procs
      ensures LeftAs(s, p, s', x)
    {
      LeftUp(s, p, k, t, c, s', x);
    }
    OutUp(s, p, k, t, c, s');
    RingUp(s, p, k, t, c, s');
  }

  /** What was freed and what was reached, seen from the parent. */
  lemma SetsUp(s: Sys, p: int, k: set<int>, t: Sys, c: int)
    requires ActiveUnder(s, p, k, t, c)
    ensures Tree(s.procs, s.depth) && p in s.procs && Tree(t.procs, t.depth) && c in t.procs
    ensures ReachedSet(s, p) == {p} + k + ReachedSet(t, c) && Gone(s, p) == k + Gone(t, c)
  {
    hide ActiveUnder, Tree, Subtree, ReachedBy;
    UnderTrees(s, p, k, t, c);
    forall x
      ensures x in ReachedSet(s, p) <==> x in {p} + k + ReachedSet(t, c)
      ensures x in Gone(s, p) <==> x in k + Gone(t, c)
    {
      SetsUpAt(s, p, k, t, c, x);
    }
  }

  lemma SetsUpAt(s: Sys, p: int, k: set<int>, t: Sys, c: int, x: int)
    requires ActiveUnder(s, p, k, t, c)
    ensures x in ReachedBy(s, p) <==> x == p || x in k || x in ReachedBy(t, c)
    ensures s.active in Subtree(s, p) && (x == p ==> x !in k && x !in ReachedBy(t, c))
    ensures x in k ==> s.active !in Subtree(s, x) && x !in ReachedBy(t, c)
    ensures x in ReachedBy(t, c) ==> (s.active in Subtree(s, x) <==> t.active in Subtree(t, x))
  {
    KeptHomed(t);
    hide Kept, Detach, Killable, Reached, ReachedOf, PartOf, Subtree, Tree, Homed, WalksEnd, ChildWalksEnd;
    MidBelow(s, p, k, t, c);
    MidKill(s, p, k, t, p);
    if x in ReachedBy(t, c) {
      ReachedAlive(t, c, x);
      MidKill(s, p, k, t, x);
      MidSubtree(s, p, k, t, x, s.active);
    }
    if x in k && x in s.procs {
      MidSubtree(s, p, k, t, x, s.active);
    }
    if x in k {
      MidParts(s, p, k, t, x);
    }
  }

  lemma MidParts(s: Sys, p: int, k: set<int>, t: Sys, x: int)
    requires InKill(s, p, k, t) && x in k
    ensures x in s.procs
  {
    DetachFacts(s, p);
  }

  lemma OutUp(s: Sys, p: int, k: set<int>, t: Sys, c: int, s': Sys)
    requires ActiveUnder(s, p, k, t, c) && Tree(t.procs, t.depth) && c in t.procs && OutOfLists(t, ReachedSet(t, c), s')
    ensures Tree(s.procs, s.depth) && p in s.procs && OutOfLists(s, ReachedSet(s, p), s')
  {
    hide OutOfLists, ReachedSet, Tree, OnWay, Detach, Kept, Killable, PartOf, Subtree;
    SetsUp(s, p, k, t, c);
    DetachFacts(s, p);
    DetachedLists(s, p);
    PruneOut(Detach(s, p), k);
    OutTwice(s, {p}, Detach(s, p), k, t);
    OutTwice(s, {p} + k, t, ReachedSet(t, c), s');
  }

  lemma PruneOut(s: Sys, k: set<int>)
    ensures OutOfLists(s, k, Prune(s, k))
  {
  }

  lemma UnderBegins(s: Sys, p: int, k: set<int>, t: Sys, c: int)
    requires InKill(s, p, k, t) && OnWay(s, p, k, t) && t.procs[p].children != [] && c == t.procs[p].children[0]
    requires c in t.procs
    requires s.active in Subtree(t, c)
    ensures ActiveUnder(s, p, k, t, c)
  {
    OnWaySwitches(t, p, c);
    BelowChild(t.procs, t.depth, p, c);
  }

  lemma RingUp(s: Sys, p: int, k: set<int>, t: Sys, c: int, s': Sys)
    requires ActiveUnder(s, p, k, t, c) && SwitchedTo(t, BeforeActive(t, c), s')
    ensures SwitchedTo(s, BeforeActive(s, p), s')
  {
    KeptHomed(s);
    hide Kept, Detach, Killable, Reached, ReachedOf, PartOf, Tree, Homed, OnWay, BeforeActive, NextOf, HighestBelow;
    MidBelow(s, p, k, t, c);
    MidKill(s, p, k, t, s.active);
    var j := t.procs[s.active].priority;
    RingCount(s, t);
    MidRing(s, p, k, t, j);
    BeforeUp(s, p, k, t, c);
    WithoutTwice(s.rings[j], {p} + k, BeforeActive(t, c));
  }

  lemma RingCount(s: Sys, t: Sys)
    requires Kept(s) && Kept(t)
    ensures |s.rings| == |t.rings|
  {
  }

  lemma BeforeUp(s: Sys, p: int, k: set<int>, t: Sys, c: int)
    requires ActiveUnder(s, p, k, t, c)
    ensures BeforeActive(s, p) == {p} + k + BeforeActive(t, c)
  {
    hide ActiveUnder, Tree, Subtree, ReachedBy;
    UnderTrees(s, p, k, t, c);
    forall x
      ensures x in BeforeActive(s, p) <==> x in {p} + k + BeforeActive(t, c)
    {
      BeforeUpAt(s, p, k, t, c, x);
    }
  }

  lemma UnderTrees(s: Sys, p: int, k: set<int>, t: Sys, c: int)
    requires ActiveUnder(s, p, k, t, c)
    ensures Tree(s.procs, s.depth) && Tree(t.procs, t.depth) && p in s.procs && c in t.procs
    ensures t.procs.Keys <= s.procs.Keys
    ensures t.active == s.active && p in t.procs
  {
    KeptHomed(s);
    KeptHomed(t);
    MidKill(s, p, k, t, p);
  }

  lemma BeforeUpAt(s: Sys, p: int, k: set<int>, t: Sys, c: int, x: int)
    requires ActiveUnder(s, p, k, t, c)
    ensures x == p || x in k ==> x in ReachedBy(s, p) && x !in Subtree(s, s.active)
    ensures x != p && x !in k ==> (x in ReachedBy(s, p) <==> x in ReachedBy(t, c))
    ensures x != p && x !in k && x in ReachedBy(t, c) ==> (x in Subtree(s, s.active) <==> x in Subtree(t, s.active))
  {
    KeptHomed(t);
    hide Kept, Detach, Killable, Reached, ReachedOf, PartOf, Subtree, Tree, Homed, WalksEnd, ChildWalksEnd;
    var a := s.active;
    MidBelow(s, p, k, t, c);
    MidKill(s, p, k, t, a);
    if x in k {
      NotUnder(s, p, k, t, x, a);
    } else if x == p {
      NotAbove(s, p, a);
    } else if x in ReachedBy(t, c) {
      ReachedAlive(t, c, x);
      MidKill(s, p, k, t, x);
      MidSubtree(s, p, k, t, a, x);
    }
  }

  lemma ReachedAlive(t: Sys, c: int, x: int)
    requires Tree(t.procs, t.depth) && c in t.procs && x in ReachedBy(t, c)
    ensures x in t.procs
  {
    ReachedBelow(t.procs, t.depth, c, t.active);
  }

  /** The part that is gone hangs below p, so that an ancestor of one of its members is in it or at or above p. */
  lemma {:induction false} ClimbsTo(par: map<int, int>, depth: Depths, k: set<int>, p: int, x: int, a: int)
    requires Ancestor(par, depth, x, a) && x in k && forall y :: y in k && y in par ==> par[y] == p || par[y] in k
    ensures a in k || Ancestor(par, depth, p, a)
    decreases if x in depth then depth[x] else 0
  {
    if x != a && par[x] != p {
      ClimbsTo(par, depth, k, p, par[x], a);
    }
  }

  lemma NotUnder(s: Sys, p: int, k: set<int>, t: Sys, x: int, a: int)
    requires InKill(s, p, k, t) && x in k && a !in k && a in s.procs && a in Subtree(s, p) && a != p
    ensures x !in Subtree(s, a)
  {
    DetachFacts(s, p);
    NotAbove(s, p, a);
    if x in Subtree(s, a) {
      ClimbsTo(Parents(s.procs), s.depth, k, p, x, a);
    }
  }

  lemma NotAbove(s: Sys, p: int, a: int)
    requires Kept(s) && p in s.procs && a in s.procs && a in Subtree(s, p) && a != p
    ensures p !in Subtree(s, a)
  {
    assert Branch(s.procs, s.depth, a) && Branch(s.procs, s.depth, p);
    AncestorDeeper(Parents(s.procs), s.depth, a, p);
    if p in Subtree(s, a) {
      AncestorDeeper(Parents(s.procs), s.depth, p, a);
    }
  }

  // ----- one child after the other -----

  /** The first child is gone with its subtree. */
  lemma OnWayStep(s: Sys, p: int, k: set<int>, t: Sys, c: int, d: set<int>, u: Sys)
    requires InKill(s, p, k, t) && OnWay(s, p, k, t) && t.procs[p].children != [] && c == t.procs[p].children[0]
    requires c in t.procs
    requires d == Subtree(t, c) && s.active !in d && WalksEnd(t, c) && u == Prune(t, d) && Kept(u) && p in u.procs
    ensures OnWay(s, p, k + d, u)
  {
    hide Tree, Homed, Queued, SleepSorted, WalksEnd, ChildWalksEnd, ReachedBy, ReachedUnder, Prune, Subtree, Killable,
        PartOf, Detach;
    OnWayNext(t, p, c, u);
  }

  lemma ZombieWalks(t: Sys, c: int)
    requires Kept(t) && c in t.procs && t.procs[c].state.Zombie?
    ensures WalksEnd(t, c)
  {
    assert Branch(t.procs, t.depth, c);
    assert ReachedUnder(t, c) == [];
    assert ReachedBy(t, c) == [c];
    assert [c][1..] == [];
  }

  lemma NoChildWalks(s: Sys, p: int)
    requires Tree(s.procs, s.depth) && p in s.procs && s.procs[p].children == []
    ensures ChildWalksEnd(s, p)
  {
  }

  /** Telling the parent changes no walk. */
  lemma ToldWalks(s: Sys, p: int)
    requires Kept(s) && p in s.procs
    ensures Kept(ParentTold(s, p)) && p in ParentTold(s, p).procs && (WalksEnd(ParentTold(s, p), p) <==> WalksEnd(s, p))
  {
    hide Homed, Queued, SleepSorted, Reached;
    ToldKept(s, p);
    var t := ParentTold(s, p);
    if Awaited(s.procs, p) {
      var a := s.procs[p].parent;
      ParentOutside(s, p);
      AllSame(s.procs, t.procs, s.depth);
      ToldSleepers(s, p);
      ReachedSame(s.procs, t.procs, s.depth, t.depth, s.procs.Keys, p, s.active);
      ReachedBelow(s.procs, s.depth, p, s.active);
      SleepersSame(s.procs, t.procs, ReachedBy(s, p));
    }
  }

  lemma ToldSleepers(s: Sys, p: int)
    requires Kept(s) && p in s.procs
    ensures ParentTold(s, p).sleepers == s.sleepers && ParentTold(s, p).depth == s.depth
  {
    if Awaited(s.procs, p) {
      var a := s.procs[p].parent;
      var pc := s.procs[a].(state := Sched(ReapChild(p)));
      assert HasHome(s, a);
      MoveFields(s, a, pc);
      MoveLists(s, a, pc, Asleep);
    }
  }

  // ----- the loop -----

  /** The loop over the children is at its end. */
  lemma AllChildrenDead(s: Sys, p: int, k: set<int>, t: Sys, code: int)
    requires InKill(s, p, k, t) && OnWay(s, p, k, t) && t.procs[p].children == []
    ensures WalksEnd(s, p) && Corpse(t, p, code) == Killed(s, p, code) && Kept(Killed(s, p, code))
    ensures s.active !in Subtree(s, p) - {p}
    ensures Killed(s, p, code).procs.Keys == t.procs.Keys
  {
    hide Prune, Killed, Detach, Killable, Subtree, PartOf;
    NoChildWalks(t, p);
    KillEnds(s, p, k, t, code);
  }

  /** Whether the walks of the next child end decides for all when one does not, or when the active process is below
      it. */
  lemma BelowBegins(s: Sys, p: int, k: set<int>, t: Sys, c: int)
    requires InKill(s, p, k, t) && OnWay(s, p, k, t) && t.procs[p].children != [] && c == t.procs[p].children[0]
    requires c in t.procs
    ensures Subtree(t, c) < Subtree(s, p) && t.active == s.active && c in Subtree(t, c)
    ensures !WalksEnd(t, c) ==> !WalksEnd(s, p)
    ensures s.active in Subtree(t, c) && WalksEnd(t, c) ==> WalksEnd(s, p)
  {
    hide Killable, Subtree, PartOf, Detach, WalksEnd, ChildWalksEnd, ReachedBy, ReachedUnder;
    var c', d := KillNext(s, p, k, t);
    OnWayHangs(t, p, c);
    if s.active in Subtree(t, c) {
      OnWaySwitches(t, p, c);
    }
  }
}
