/** What an event changes and what it leaves: record by record, list by list, buffer by buffer. */
module ProcessEffects {
  import opened Lists
  import opened Processes
  import opened ProcessTree
  import opened ProcessOrder
  import opened MessageQueues
  import opened ProcessState
  import opened ProcessSteps
  import opened ProcessLife
  import opened ProcessDeath
  import opened ProcessSwitch
  import opened ProcessAway
  import opened ProcessQueues
  import opened ProcessSteady
  import opened ProcessKernel
  import opened WaitOrder
  import opened ProcessHistory

  // ----- lists -----

  /** Those of some processes whose record names the list h, the last of them first. */
  function Front(l: seq<int>, ps: Procs, h: Home): seq<int> {
    if l == [] then []
    else Front(l[1..], ps, h) + if l[0] in ps && HomeOf(ps[l[0]]) == h then [l[0]] else []
  }

  ghost function Members(l: seq<int>): set<int> { set x | x in l }

  /** The list h lost some processes, and those that moved are in front of the rest when their records name it, the
      last that moved first. */
  ghost predicate ListAs(s: Sys, s': Sys, movers: seq<int>, out: set<int>, h: Home) {
    HasList(s, h) && HasList(s', h) ==>
      List(s', h) == Front(movers, s'.procs, h) + Without(List(s, h), out + Members(movers))
  }

  ghost predicate Rearranged(s: Sys, s': Sys, movers: seq<int>, out: set<int>) {
    |s'.rings| == |s.rings| && forall h {:trigger ListAs(s, s', movers, out, h)} :: ListAs(s, s', movers, out, h)
  }

  lemma OneMoved(s: Sys, p: int, pc: Proc)
    requires Homed(s) && p in s.procs && HasHome(s, p) && CanEnter(s, pc)
    ensures Rearranged(s, Move(s, p, pc), [p], {}) && Move(s, p, pc).queues.Keys == s.queues.Keys
  {
    MoveFields(s, p, pc);
    hide Move;
    var s' := Move(s, p, pc);
    MoveLists(s, p, pc, Nowhere);
    forall h
      ensures ListAs(s, s', [p], {}, h)
    {
      MoveLists(s, p, pc, h);
      if HasList(s, h) {
        LostOne(s, p, h);
        FrontOfOne(p, s'.procs, h);
      }
    }
  }

  lemma LostOne(s: Sys, p: int, h: Home)
    requires Homed(s) && p in s.procs && HasList(s, h)
    ensures Without(List(s, h), {} + Members([p])) ==
        if h == HomeOf(s.procs[p]) then Remove(List(s, h), p) else List(s, h)
  {
    assert Houses(s, h);
    assert {} + Members([p]) == {p};
    if h == HomeOf(s.procs[p]) {
      WithoutOne(List(s, h), p);
    } else {
      WithoutNone(List(s, h), {p});
    }
  }

  lemma FrontOfOne(p: int, ps: Procs, h: Home)
    ensures Front([p], ps, h) == if p in ps && HomeOf(ps[p]) == h then [p] else []
  {
    assert [p][1..] == [];
  }

  /** Only the homes of those that moved matter. */
  lemma {:induction false} FrontSame(l: seq<int>, ps: Procs, ps': Procs, h: Home)
    requires forall x :: x in l ==> x in ps && x in ps' && HomeOf(ps'[x]) == HomeOf(ps[x])
    ensures Front(l, ps, h) == Front(l, ps', h)
  {
    if l != [] {
      var first := l[0];
      assert first in l && first in ps;
      FrontSame(l[1..], ps, ps', h);
      assert HomeOf(ps'[first]) == h <==> HomeOf(ps[first]) == h;
    }
  }

  lemma {:induction false} WithoutJoined(a: seq<int>, b: seq<int>, k: set<int>)
    ensures Without(a + b, k) == Without(a, k) + Without(b, k)
  {
    if a == [] {
      assert a + b == b;
    } else {
      assert (a + b)[1..] == a[1..] + b;
      WithoutJoined(a[1..], b, k);
    }
  }

  lemma {:induction false} ManyWoken(s: Sys, l: seq<int>, r: Resume)
    requires Kept(s) && NoDups(l) && !r.ReapChild? && forall p :: p in l ==> p in s.procs && !s.procs[p].state.Zombie?
    ensures Rearranged(s, WakeEach(s, l, r), l, {})
    decreases |l|
  {
    hide Kept, Move, Wake, WakeEach, Rearranged;
    WakeUnfold(s, l, r);
    if l == [] {
      NoneMoved(s);
    } else {
      var p, s1 := l[0], Wake(s, l[0], r);
      FirstOfRest(l);
      WakeKept(s, p, r, MAX_PRIORITY) by {
        KeptHomed(s);
      }
      OneMoved(s, p, Woken(s.procs[p], r)) by {
        KeptHomed(s);
      }
      WokenFacts(s, s1, [p], r);
      ManyWoken(s1, l[1..], r);
      WakeList(s1, l[1..], r);
      WakeList(s, l, r);
      FirstThenRest(s, s1, WakeEach(s, l, r), l, r);
    }
  }

  lemma NoneMoved(s: Sys)
    ensures Rearranged(s, s, [], {})
  {
    forall h
      ensures ListAs(s, s, [], {}, h)
    {
      if HasList(s, h) {
        WithoutNone(List(s, h), {} + Members([]));
      }
    }
  }

  lemma FirstThenRest(s: Sys, s1: Sys, s': Sys, l: seq<int>, r: Resume)
    requires NoDups(l) && l != [] && s1.queues.Keys == s.queues.Keys
    requires Rearranged(s, s1, [l[0]], {}) && Rearranged(s1, s', l[1..], {})
    requires l[0] in s1.procs && l[0] in s'.procs && HomeOf(s'.procs[l[0]]) == HomeOf(s1.procs[l[0]])
    ensures Rearranged(s, s', l, {})
  {
    hide ListAs;
    forall h
      ensures ListAs(s, s', l, {}, h)
    {
      assert ListAs(s, s1, [l[0]], {}, h) && ListAs(s1, s', l[1..], {}, h);
      ListThenRest(s, s1, s', l, h);
    }
  }

  lemma ListThenRest(s: Sys, s1: Sys, s': Sys, l: seq<int>, h: Home)
    requires NoDups(l) && l != [] && s1.queues.Keys == s.queues.Keys && |s1.rings| == |s.rings|
    requires ListAs(s, s1, [l[0]], {}, h) && ListAs(s1, s', l[1..], {}, h)
    requires l[0] in s1.procs && l[0] in s'.procs && HomeOf(s'.procs[l[0]]) == HomeOf(s1.procs[l[0]])
    ensures ListAs(s, s', l, {}, h)
  {
    hide Front, Without, Members, HomeOf;
    MembersRest(l);
    FrontStep(l, s'.procs, h);
    FrontOfOne(l[0], s1.procs, h);
    if HasList(s, h) {
      var a := Front([l[0]], s1.procs, h);
      OutOfBoth(a, List(s, h), {} + Members([l[0]]), {} + Members(l[1..]));
      JoinThree(Front(l[1..], s'.procs, h), a, Without(List(s, h), {} + Members(l)));
    }
  }

  lemma OutOfBoth(a: seq<int>, l: seq<int>, j: set<int>, k: set<int>)
    requires forall x :: x in a ==> x !in k
    ensures Without(a + Without(l, j), k) == a + Without(l, j + k)
  {
    WithoutJoined(a, Without(l, j), k);
    forall x | x in a
      ensures x !in k
    {
    }
    WithoutNone(a, k);
    WithoutTwice(l, j, k);
  }

  lemma JoinThree(a: seq<int>, b: seq<int>, c: seq<int>)
    ensures a + (b + c) == (a + b) + c
  {
  }

  lemma MembersRest(l: seq<int>)
    requires l != [] && NoDups(l)
    ensures ({} + Members([l[0]])) + ({} + Members(l[1..])) == {} + Members(l)
    ensures forall x :: x in [l[0]] ==> x !in {} + Members(l[1..])
  {
    FirstOfRest(l);
  }

  lemma FrontStep(l: seq<int>, ps: Procs, h: Home)
    requires l != []
    ensures Front(l, ps, h) == Front(l[1..], ps, h) + if l[0] in ps && HomeOf(ps[l[0]]) == h then [l[0]] else []
  {
  }

  /** What does not touch lists or the homes of those that moved. */
  lemma StillRearranged(s: Sys, t: Sys, s': Sys, movers: seq<int>, out: set<int>)
    requires Rearranged(s, t, movers, out) && s'.rings == t.rings && s'.cons == t.cons && s'.sleepers == t.sleepers
    requires forall q :: q in s'.queues ==>
        q in s.queues && q in t.queues && s'.queues[q].waiters == t.queues[q].waiters
    requires forall x :: x in movers ==> x in t.procs && x in s'.procs && HomeOf(s'.procs[x]) == HomeOf(t.procs[x])
    ensures Rearranged(s, s', movers, out)
  {
    forall h
      ensures ListAs(s, s', movers, out, h)
    {
      assert ListAs(s, t, movers, out, h);
      FrontSame(movers, t.procs, s'.procs, h);
    }
  }

  /** Some processes moved, and then others left all lists. */
  lemma MovedThenOut(s: Sys, t: Sys, s': Sys, movers: seq<int>, out: set<int>)
    requires Rearranged(s, t, movers, {}) && OutOfLists(t, out, s') && t.queues.Keys == s.queues.Keys
    requires forall x :: x in movers ==>
        x !in out && x in t.procs && x in s'.procs && HomeOf(s'.procs[x]) == HomeOf(t.procs[x])
    ensures Rearranged(s, s', movers, out)
  {
    forall h
      ensures ListAs(s, s', movers, out, h)
    {
      if HasList(s, h) && HasList(s', h) {
        assert ListAs(s, t, movers, {}, h);
        assert List(s', h) == Without(List(t, h), out);
        FrontSame(movers, t.procs, s'.procs, h);
        FrontMembers(movers, t.procs, h);
        WithoutJoined(Front(movers, t.procs, h), Without(List(s, h), {} + Members(movers)), out);
        forall x | x in Front(movers, t.procs, h)
          ensures x !in out
        {
          assert x in movers;
        }
        WithoutNone(Front(movers, t.procs, h), out);
        WithoutTwice(List(s, h), {} + Members(movers), out);
        assert ({} + Members(movers)) + out == out + Members(movers);
      }
    }
  }

  lemma {:induction false} FrontMembers(l: seq<int>, ps: Procs, h: Home)
    ensures forall x :: x in Front(l, ps, h) <==> x in l && x in ps && HomeOf(ps[x]) == h
  {
    if l != [] {
      FrontMembers(l[1..], ps, h);
      assert l == [l[0]] + l[1..];
    }
  }

  // ----- who moves, and who leaves -----

  /** A list of processes with their priorities. */
  function Line(ps: Procs, l: seq<int>): (w: seq<Elem>)
    ensures |w| == |l| && forall i :: 0 <= i < |w| ==> w[i].id == l[i]
  {
    seq(|l|, i requires 0 <= i < |l| => Elem(l[i], if l[i] in ps then ps[l[i]].priority else 0))
  }

  /** The process that is first in line: the most urgent one, and the one that waits longest among equals. */
  function First(ps: Procs, l: seq<int>): seq<int> { if l == [] then [] else [l[LastHighest(Line(ps, l))]] }

  lemma FirstIs(ps: Procs, l: seq<int>, w: int)
    requires LastOfHighest(ps, l, w)
    ensures First(ps, l) == [w]
  {
    var i :| 0 <= i < |l| && IsLastHighest(ps, l, i) && w == l[i];
    var line, k := Line(ps, l), LastHighest(Line(ps, l));
    assert l[i] in l && l[k] in l;
    assert line[i].priority == ps[l[i]].priority && line[k].priority == ps[l[k]].priority;
  }

  /** The sleepers whose time has come. */
  function Awake(ps: Procs, l: seq<int>, clock: int): seq<int> {
    if l == [] then []
    else if l[0] in ps && ps[l[0]].state.WaitTime? && ps[l[0]].state.clock <= clock
      then [l[0]] + Awake(ps, l[1..], clock)
    else Awake(ps, l[1..], clock)
  }

  lemma {:induction false} NoneAwake(ps: Procs, l: seq<int>, clock: int)
    requires forall p :: p in l ==> p in ps && ps[p].state.WaitTime? && ps[p].state.clock > clock
    ensures Awake(ps, l, clock) == []
  {
    if l != [] {
      var first := l[0];
      assert first in l;
      NoneAwake(ps, l[1..], clock);
    }
  }

  lemma {:induction false} DueAreAwake(ps: Procs, l: seq<int>, clock: int)
    requires SleepSorted(ps, l)
    ensures Due(ps, l, clock) == Awake(ps, l, clock)
  {
    if l != [] {
      var first := l[0];
      assert first in l;
      if ps[first].state.clock <= clock {
        DueAreAwake(ps, l[1..], clock);
      } else {
        NoneAwake(ps, l, clock);
      }
    }
  }

  /** The parent of a process, if it waits for it or for any child. */
  function Waking(ps: Procs, z: int): seq<int> {
    var a := if z in ps then ps[z].parent else NOBODY;
    if z in ps && a in ps && ps[a].state.WaitChild? && (ps[a].state.pid == z || ps[a].state.pid < 0) then [a] else []
  }

  /** The processes that enter a list in an event, in the order in which they do. */
  ghost function Movers(s: Sys, e: Event): seq<int> {
    match e
    case Starts(p, _) => [p]
    case Exits(_) => Waking(s.procs, s.active)
    case Kills(p) => Waking(s.procs, p)
    case Ranks(p, _) => if p in s.procs && (s.procs[p].state.Sched? || s.procs[p].state.WaitQueue?) then [p] else []
    case Blocks(_) => [s.active]
    case AwaitsLine => [s.active]
    case Resets(q) => if q in s.queues then s.queues[q].waiters else []
    case Deletes(q) => if q in s.queues then s.queues[q].waiters else []
    case Sends(q, _) =>
      if q in s.queues && s.queues[q].length == 0 then First(s.procs, s.queues[q].waiters) else []
    case Receives(q, _) =>
      if q in s.queues && s.queues[q].length == s.queues[q].capacity then First(s.procs, s.queues[q].waiters) else []
    case Flushes(_) => s.cons
    case Passes(clock) => Awake(s.procs, s.sleepers, clock)
    case _ => []
  }

  /** The processes that an exit or a kill reaches. */
  ghost function Struck(s: Sys, e: Event): set<int> {
    match e
    case Exits(_) => ReachedFrom(s, s.active)
    case Kills(p) => ReachedFrom(s, p)
    case _ => {}
  }

  ghost function ReachedFrom(s: Sys, p: int): set<int> {
    if Tree(s.procs, s.depth) && p in s.procs then ReachedSet(s, p) else {}
  }

  // ----- the lists after an event -----

  lemma BirthLists(s: Sys, p: int, k: int, s': Sys)
    requires Kept(s) && ActiveReady(s) && DidStart(s, p, k, s')
    ensures Rearranged(s, s', [p], {})
  {
    hide Tree, Queued, SleepSorted, Front, Without;
    EnterRing(s, p, Newborn(s.active, k));
    assert s'.procs[p] == Newborn(s.active, k);
    forall h
      ensures ListAs(s, s', [p], {}, h)
    {
      if HasList(s, h) && HasList(s', h) {
        assert Houses(s, h);
        WithoutNone(List(s, h), {} + Members([p]));
        FrontOfOne(p, s'.procs, h);
      }
    }
  }

  lemma BelowIsSubtree(s: Sys, p: int)
    ensures Subtree(s, p) == Below(Parents(s.procs), s.depth, p)
  {
  }

  lemma ReachedAll(s: Sys, p: int)
    requires Kept(s) && p in s.procs && s.active !in Subtree(s, p) - {p}
    ensures ReachedSet(s, p) == Subtree(s, p)
  {
    ReachedMembers(s.procs, s.depth, p, s.active);
    hide Reached, Subtree;
    forall x
      ensures x in ReachedSet(s, p) <==> x in Subtree(s, p)
    {
      assert x in ReachedSet(s, p) <==> x in ReachedBy(s, p);
      BelowIsSubtree(s, p);
    }
  }

  /** Telling the parent moves it, and changes nothing that a kill reaches. */
  lemma ToldLists(s: Sys, p: int)
    requires Kept(s) && p in s.procs
    ensures var t := ParentTold(s, p);
            && Kept(t) && p in t.procs && t.queues.Keys == s.queues.Keys && ReachedSet(t, p) == ReachedSet(s, p)
            && Rearranged(s, t, Waking(s.procs, p), {}) && forall x :: x in Waking(s.procs, p) ==>
                x in s.procs && x in t.procs && x !in Subtree(s, p) && x !in ReachedSet(s, p)
                && t.procs[x].state == Sched(ReapChild(p))
  {
    hide Queued, SleepSorted, Reached, Rearranged;
    ToldKept(s, p);
    var t, a := ParentTold(s, p), s.procs[p].parent;
    if Awaited(s.procs, p) {
      assert HasHome(s, a);
      MoveFields(s, a, s.procs[a].(state := Sched(ReapChild(p))));
      OneMoved(s, a, s.procs[a].(state := Sched(ReapChild(p))));
      ParentOutside(s, p);
      ReachedBelow(s.procs, s.depth, p, s.active);
      AllSame(s.procs, t.procs, s.depth);
      ReachedSame(s.procs, t.procs, s.depth, t.depth, s.procs.Keys, p, s.active);
    } else {
      NoneMoved(s);
    }
  }

  lemma ExitLists(s: Sys, code: int)
    requires Kept(s) && ActiveReady(s)
    ensures Rearranged(s, Exited(s, code), Movers(s, Exits(code)), Struck(s, Exits(code)))
  {
    hide Kept, ParentTold, Killed, Subtree, Rearranged, ReachedSet, OutOfLists;
    var p := s.active;
    KeptHomed(s);
    ToldLists(s, p);
    ToldZombies(s, p);
    ExitedIs(s, code);
    var t := ParentTold(s, p);
    KilledLists(t, p, code);
    ReachedAll(s, p);
    OutActive(t, Subtree(t, p), Killed(t, p, code), Exited(s, code).active);
    forall x | x in Waking(s.procs, p)
      ensures x in Exited(s, code).procs && Exited(s, code).procs[x] == t.procs[x]
    {
      KilledProcs(t, p, code, x);
    }
    MovedThenOut(s, t, Exited(s, code), Waking(s.procs, p), Subtree(s, p));
  }

  lemma OutActive(t: Sys, out: set<int>, r: Sys, a: int)
    requires OutOfLists(t, out, r)
    ensures OutOfLists(t, out, r.(active := a))
  {
  }

  lemma KillLists(s: Sys, p: int, s': Sys)
    requires Kept(s) && ActiveReady(s) && DidKill(s, p, s')
    ensures Rearranged(s, s', Movers(s, Kills(p)), Struck(s, Kills(p)))
  {
    hide Kept, ParentTold, Killed, Subtree, Rearranged, ReachedSet, OutOfLists, LeftAs, SwitchedTo;
    KeptHomed(s);
    ToldLists(s, p);
    ToldZombies(s, p);
    var t := ParentTold(s, p);
    if s.active in Subtree(s, p) {
      ToldPath(s, p);
      var r :| SwitchedAway(t, p, r) && s' == AsStored(r);
      OutStored(t, ReachedSet(t, p), r);
      forall x | x in Waking(s.procs, p)
        ensures x in s'.procs && s'.procs[x] == t.procs[x]
      {
        assert LeftAs(t, p, r, x);
        NotReached(t, p, r, x);
      }
      MovedThenOut(s, t, s', Waking(s.procs, p), ReachedSet(s, p));
    } else {
      KilledLists(t, p, 0);
      ReachedAll(s, p);
      forall x | x in Waking(s.procs, p)
        ensures x in s'.procs && s'.procs[x] == t.procs[x]
      {
        KilledProcs(t, p, 0, x);
      }
      MovedThenOut(s, t, s', Waking(s.procs, p), Subtree(s, p));
    }
  }

  lemma OutStored(t: Sys, out: set<int>, r: Sys)
    requires OutOfLists(t, out, r)
    ensures OutOfLists(t, out, AsStored(r))
  {
  }

  lemma NotReached(t: Sys, p: int, r: Sys, x: int)
    requires Tree(t.procs, t.depth) && p in t.procs && x in t.procs && LeftAs(t, p, r, x) && x !in ReachedSet(t, p)
    requires !t.procs[x].state.Dying?
    ensures x in r.procs && r.procs[x] == t.procs[x] && AsStored(r).procs[x] == t.procs[x]
  {
  }

  lemma RankLists(s: Sys, p: int, k: int)
    requires Kept(s) && p in s.procs && 0 <= k < MAX_PRIORITY
    ensures s.active in s.procs ==> Rearranged(s, Ranked(s, p, k), Movers(s, Ranks(p, k)), {})
  {
    RerankedKept(s, p, k);
    var t, s' := Reranked(s, p, k), Ranked(s, p, k);
    assert HasHome(s, p);
    var pc := s.procs[p].(priority := k);
    if s.procs[p].state.Sched? || s.procs[p].state.WaitQueue? {
      OneMoved(s, p, pc);
      hide Rearranged, Ranked;
      RankedIs(s, p, k);
      StillRearranged(s, t, s', [p], {});
    } else {
      NoneMoved(s);
      hide Rearranged, Ranked;
      RankedIs(s, p, k);
      StillRearranged(s, s, s', [], {});
    }
  }

  lemma RankedIs(s: Sys, p: int, k: int)
    requires Kept(s) && p in s.procs && 0 <= k < MAX_PRIORITY
    ensures Ranked(s, p, k) == Reranked(s, p, k).(active := RunsAfter(s, p, k))
  {
  }

  lemma BlockLists(s: Sys, state: State, s': Sys)
    requires Kept(s) && ActiveReady(s) && DidBlock(s, state, s')
    ensures Rearranged(s, s', [s.active], {})
  {
    var pc := s.procs[s.active].(state := state);
    assert HasHome(s, s.active);
    OneMoved(s, s.active, pc);
    MoveActive(s, s.active, pc);
    hide Rearranged, Move;
    StillRearranged(s, Move(s, s.active, pc), s', [s.active], {});
  }

  lemma WakeLists(s: Sys, t: Sys, s': Sys, l: seq<int>, r: Resume)
    requires Kept(s) && NoDups(l) && !r.ReapChild? && forall p :: p in l ==> p in s.procs && !s.procs[p].state.Zombie?
    requires t == WakeEach(s, l, r) && s'.procs == t.procs
    requires s'.rings == t.rings && s'.cons == t.cons && s'.sleepers == t.sleepers
    requires forall q :: q in s'.queues ==>
        q in s.queues && q in t.queues && s'.queues[q].waiters == t.queues[q].waiters
    ensures Rearranged(s, s', l, {})
  {
    hide Rearranged, WakeEach, Kept;
    ManyWoken(s, l, r);
    WakeList(s, l, r);
    StillRearranged(s, t, s', l, {});
  }

  lemma ResetLists(s: Sys, q: int, s': Sys)
    requires Kept(s) && q in s.queues && (WasResetTo(s, q, Reset(s, q), s') || WasResetTo(s, q, Deleted(s, q), s'))
    ensures Rearranged(s, s', s.queues[q].waiters, {})
  {
    hide Kept, WakeEach, TopOf, Rearranged, OnlyWoken, QueueOk;
    KeptHomed(s);
    Waiting(s, InQueue(q));
    WaitersGone(s, q);
    WakeLists(s, WakeEach(s, s.queues[q].waiters, WasReset), s', s.queues[q].waiters, WasReset);
  }

  lemma FlushLists(s: Sys, text: seq<char>, s': Sys)
    requires Kept(s) && WasFlushed(s, text, s')
    ensures Rearranged(s, s', s.cons, {})
  {
    hide Kept, WakeEach, TopOf, Rearranged, OnlyWoken;
    KeptHomed(s);
    Waiting(s, OnConsole);
    WakeRuns(s, s.cons, ReadAgain);
    WakeLists(s, WakeEach(s, s.cons, ReadAgain), s', s.cons, ReadAgain);
  }

  lemma TimeLists(s: Sys, clock: int, s': Sys)
    requires Kept(s) && WasTimed(s, clock, s')
    ensures Rearranged(s, s', Awake(s.procs, s.sleepers, clock), {})
  {
    hide Kept, WakeEach, Due, SleepSorted, TopOf, Rearranged;
    var l := Due(s.procs, s.sleepers, clock);
    SleepersKnown(s);
    Waiting(s, Asleep);
    DuePrefix(s.procs, s.sleepers, clock);
    DueAreAwake(s.procs, s.sleepers, clock);
    WakeRuns(s, l, Nothing);
    WakeLists(s, WakeEach(s, l, Nothing), s', l, Nothing);
  }

  lemma SendLists(s: Sys, q: int, m: int, s': Sys)
    requires Kept(s) && ActiveReady(s) && Did(s, Sends(q, m), s')
    ensures Rearranged(s, s', Movers(s, Sends(q, m)), {})
  {
    hide Kept, HasHanded, Rearranged;
    if s.queues[q].length == 0 && s.queues[q].waiters != [] {
      HandLists(s, q, m, s');
    } else {
      NoneMoved(s);
      StillRearranged(s, s, s', [], {});
    }
  }

  lemma HandLists(s: Sys, q: int, m: int, s': Sys)
    requires Kept(s) && q in s.queues && s.queues[q].length == 0 && HasHanded(s, q, m, s')
    ensures Rearranged(s, s', First(s.procs, s.queues[q].waiters), {})
  {
    hide Kept, Wake, Rearranged;
    var w :| LastOfHighest(s.procs, s.queues[q].waiters, w) && s' == Urgent(HandedTo(s, q, w, m), w);
    FirstIs(s.procs, s.queues[q].waiters, w);
    HandedKept(s, q, w, m);
    KeptHomed(s);
    Waiting(s, InQueue(q));
    OneWoken(s, w, Handed(q, m));
    WakeLists(s, Wake(s, w, Handed(q, m)), s', [w], Handed(q, m));
  }

  lemma ReceiveLists(s: Sys, q: int, m: int, s': Sys)
    requires Kept(s) && ActiveReady(s) && Did(s, Receives(q, m), s')
    ensures Rearranged(s, s', Movers(s, Receives(q, m)), {})
  {
    hide Kept, HasRefilled, Rearranged;
    if s.queues[q].length == s.queues[q].capacity && s.queues[q].waiters != [] {
      RefillLists(s, q, s');
    } else {
      NoneMoved(s);
      StillRearranged(s, s, s', [], {});
    }
  }

  lemma RefillLists(s: Sys, q: int, s': Sys)
    requires Kept(s) && q in s.queues && s.queues[q].length == s.queues[q].capacity && HasRefilled(s, q, s')
    ensures Rearranged(s, s', First(s.procs, s.queues[q].waiters), {})
  {
    hide Kept, Wake, Rearranged, LastOfHighest, First, Urgent;
    var w :| LastOfHighest(s.procs, s.queues[q].waiters, w) && w in s.procs && s.procs[w].state.WaitQueue?
             && s' == Urgent(Wake(Refilled(s, q, w), w, Accepted), w);
    FirstIs(s.procs, s.queues[q].waiters, w);
    LastIn(s.procs, s.queues[q].waiters, w);
    RefilledKept(s, q, w);
    KeptHomed(s);
    RefillWoken(s, Refilled(s, q, w), w, s');
  }

  lemma LastIn(ps: Procs, l: seq<int>, w: int)
    requires LastOfHighest(ps, l, w)
    ensures w in l
  {
  }

  lemma RefillWoken(s: Sys, t: Sys, w: int, s': Sys)
    requires Kept(t) && w in t.procs && !t.procs[w].state.Zombie? && s' == Urgent(Wake(t, w, Accepted), w)
    requires t.rings == s.rings && t.cons == s.cons && t.sleepers == s.sleepers
    requires t.queues.Keys == s.queues.Keys && forall q :: q in s.queues ==> t.queues[q].waiters == s.queues[q].waiters
    ensures Rearranged(s, s', [w], {})
  {
    hide Kept, Wake, Rearranged;
    OneWoken(t, w, Accepted);
    WakeList(t, [w], Accepted);
    WakeLists(t, Wake(t, w, Accepted), s', [w], Accepted);
    FromSameLists(s, t, s', [w]);
  }

  lemma FromSameLists(s: Sys, t: Sys, s': Sys, movers: seq<int>)
    requires Rearranged(t, s', movers, {}) && t.rings == s.rings && t.cons == s.cons && t.sleepers == s.sleepers
    requires t.queues.Keys == s.queues.Keys && forall q :: q in s.queues ==> t.queues[q].waiters == s.queues[q].waiters
    ensures Rearranged(s, s', movers, {})
  {
    forall h
      ensures ListAs(s, s', movers, {}, h)
    {
      assert ListAs(t, s', movers, {}, h);
    }
  }

  lemma LifeLists(s: Sys, e: Event, s': Sys)
    requires Kept(s) && ActiveReady(s) && Did(s, e, s')
    requires e.Starts? || e.Exits? || e.Kills? || e.Reaps? || e.ReapsLater? || e.Resumes? || e.Ranks? || e.Blocks?
    ensures Rearranged(s, s', Movers(s, e), Struck(s, e))
  {
    hide Kept, Rearranged, ReachedSet;
    match e
    case Starts(p, k) => BirthLists(s, p, k, s');
    case Exits(code) => ExitLists(s, code);
    case Kills(p) => KillLists(s, p, s');
    case Reaps(c, code) => SameLists(s, s');
    case ReapsLater(c, code) => SameLists(s, s');
    case Resumes(_) => SameLists(s, s');
    case Ranks(p, k) => RankLists(s, p, k);
    case Blocks(state) => BlockLists(s, state, s');
  }

  lemma SameLists(s: Sys, s': Sys)
    requires s'.rings == s.rings && s'.cons == s.cons && s'.sleepers == s.sleepers && s'.queues.Keys == s.queues.Keys
    requires forall q :: q in s.queues ==> s'.queues[q].waiters == s.queues[q].waiters
    ensures Rearranged(s, s', [], {})
  {
    NoneMoved(s);
    hide Rearranged;
    StillRearranged(s, s, s', [], {});
  }

  lemma OtherLists(s: Sys, e: Event, s': Sys)
    requires Kept(s) && ActiveReady(s) && Did(s, e, s')
    requires !(e.Starts? || e.Exits? || e.Kills? || e.Reaps? || e.ReapsLater? || e.Resumes? || e.Ranks? || e.Blocks?)
    requires !e.Creates?
    ensures Rearranged(s, s', Movers(s, e), Struck(s, e))
  {
    hide Kept, Rearranged, ReachedSet;
    match e
    case Resets(q) => ResetLists(s, q, s');
    case Deletes(q) => ResetLists(s, q, s');
    case Sends(q, m) => SendLists(s, q, m, s');
    case Receives(q, m) => ReceiveLists(s, q, m, s');
    case ReadsLine(_, _) => SameLists(s, s');
    case AwaitsLine => AwaitLists(s, s');
    case Flushes(text) => FlushLists(s, text, s');
    case Passes(clock) => TimeLists(s, clock, s');
    case Ticks => SameLists(s, s');
    case Refuses => SameLists(s, s');
  }

  lemma AwaitLists(s: Sys, s': Sys)
    requires Kept(s) && ActiveReady(s) && Did(s, AwaitsLine, s')
    ensures Rearranged(s, s', [s.active], {})
  {
    SetConsoleKept(s, "", true);
    var t := s.(armed := true);
    BlockLists(t, WaitCons, s');
    hide Rearranged;
    FromSameLists(s, t, s', [s.active]);
  }

  lemma CreateLists(s: Sys, q: int, n: int, s': Sys)
    requires Kept(s) && ActiveReady(s) && Did(s, Creates(q, n), s')
    ensures Rearranged(s, s', [], {}) && q in s'.queues && s'.queues[q].waiters == []
  {
    var qu :| FreshQueue(qu, n) && s' == SetQueue(s, q, qu, [], []);
    NoneMoved(s);
    forall h
      ensures ListAs(s, s', [], {}, h)
    {
      assert ListAs(s, s, [], {}, h);
    }
  }

  /** Every list keeps its order, without the processes that move and those that a kill reaches; those that move are
      in front of the list that their new record names, the last one first. */
  lemma EventLists(s: Sys, e: Event, s': Sys)
    requires Kept(s) && ActiveReady(s) && Did(s, e, s')
    ensures Rearranged(s, s', Movers(s, e), Struck(s, e))
    ensures e.Creates? ==> e.queue in s'.queues && s'.queues[e.queue].waiters == []
  {
    hide Kept, ActiveReady, Did, Rearranged, Movers, Struck;
    if e.Starts? || e.Exits? || e.Kills? || e.Reaps? || e.ReapsLater? || e.Resumes? || e.Ranks? || e.Blocks? {
      LifeLists(s, e, s');
    } else if e.Creates? {
      CreateLists(s, e.queue, e.capacity, s');
      NobodyMoves(s, e);
    } else {
      OtherLists(s, e, s');
    }
  }

  lemma NobodyMoves(s: Sys, e: Event)
    requires Kept(s) && ActiveReady(s) && e.Creates?
    ensures Movers(s, e) == [] && Struck(s, e) == {}
  {
  }

  // ----- the records after an event -----

  /** The processes that are gone after an event: a reaped zombie, and those under an exiting or killed process, but not
      those on the way to the active one, where a kill stops. */
  ghost function Vanished(s: Sys, e: Event): set<int> {
    match e
    case Exits(_) => set x | x in ReachedFrom(s, s.active) && x != s.active
    case Kills(p) => set x | x in ReachedFrom(s, p) && x != p && s.active !in Subtree(s, x)
    case Reaps(c, _) => {c}
    case ReapsLater(c, _) => {c}
    case _ => {}
  }

  /** The process that becomes a zombie; NOBODY when none does. */
  ghost function Victim(s: Sys, e: Event): int {
    match e
    case Exits(_) => s.active
    case Kills(p) => if s.active in Subtree(s, p) then s.active else p
    case _ => NOBODY
  }

  /** The state of a process after an event. */
  ghost function NextState(s: Sys, e: Event, w: int): State
    requires w in s.procs
  {
    var was := s.procs[w].state;
    match e
    case Exits(code) =>
      if w == s.active then Zombie(code) else if w in Movers(s, e) then Sched(ReapChild(s.active)) else was
    case Kills(p) => if w == Victim(s, e) then Zombie(0) else if w in Movers(s, e) then Sched(ReapChild(p)) else was
    case ReapsLater(_, _) => if w == s.active then Sched(Nothing) else was
    case Resumes(_) => if w == s.active then Sched(Nothing) else was
    case Blocks(state) => if w == s.active then state else was
    case AwaitsLine => if w == s.active then WaitCons else was
    case Resets(q) => if was.WaitQueue? && was.queue == q then Sched(WasReset) else was
    case Deletes(q) => if was.WaitQueue? && was.queue == q then Sched(WasReset) else was
    case Sends(q, m) => if w in Movers(s, e) then Sched(Handed(q, m)) else was
    case Receives(_, _) => if w in Movers(s, e) then Sched(Accepted) else was
    case Flushes(_) => if was.WaitCons? then Sched(ReadAgain) else was
    case Passes(clock) => if was.WaitTime? && was.clock <= clock then Sched(Nothing) else was
    case _ => was
  }

  ghost function NextChildren(s: Sys, e: Event, w: int): seq<int>
    requires w in s.procs
  {
    if e.Starts? && w == s.active then [e.pid] + s.procs[w].children
    else if w == Victim(s, e) then []
    else Without(s.procs[w].children, Vanished(s, e))
  }

  /** What has become of a process. */
  ghost predicate RecordAs(s: Sys, e: Event, s': Sys, w: int) {
    if w !in s.procs then
      && (w in s'.procs <==> e.Starts? && w == e.pid)
      && (w in s'.procs && e.Starts? ==> s'.procs[w] == Proc(s.active, [], e.priority, Sched(Nothing)))
    else if w in Vanished(s, e) then w !in s'.procs
    else
      && w in s'.procs && s'.procs[w].parent == s.procs[w].parent
      && s'.procs[w].children == NextChildren(s, e, w)
      && s'.procs[w].state == NextState(s, e, w)
      && s'.procs[w].priority == if e.Ranks? && w == e.pid then e.priority else s.procs[w].priority
  }

  /** A record that changed its state, and its priority in a priority change, and nothing else. */
  lemma StateRecord(s: Sys, e: Event, s': Sys, w: int)
    requires Kept(s) && s.active in s.procs && w in s.procs && w in s'.procs
    requires !(e.Starts? && w == s.active) && Victim(s, e) != w && w !in Vanished(s, e)
    requires forall c :: c in s.procs[w].children ==> c !in Vanished(s, e)
    requires s'.procs[w] == s.procs[w].(state := NextState(s, e, w),
        priority := if e.Ranks? && w == e.pid then e.priority else s.procs[w].priority)
    ensures RecordAs(s, e, s', w)
  {
    WithoutNone(s.procs[w].children, Vanished(s, e));
  }

  lemma NoVictim(s: Sys, e: Event)
    requires Kept(s) && s.active in s.procs && !e.Exits? && !e.Kills?
    ensures Victim(s, e) !in s.procs
    ensures !e.Reaps? && !e.ReapsLater? ==> Vanished(s, e) == {}
  {
    NobodyOnly(s);
  }

  /** Those in a list were woken, and no others; nothing else happened to a record. */
  lemma WokenRecord(s: Sys, e: Event, s': Sys, l: seq<int>, r: Resume, w: int)
    requires Kept(s) && ActiveReady(s) && s'.procs.Keys == s.procs.Keys
    requires e.Resets? || e.Deletes? || e.Sends? || e.Receives? || e.Flushes? || e.Passes?
    requires w in s.procs ==> s'.procs[w] == if w in l then Woken(s.procs[w], r) else s.procs[w]
    requires w in s.procs ==> NextState(s, e, w) == if w in l then Sched(r) else s.procs[w].state
    ensures RecordAs(s, e, s', w)
  {
    NoVictim(s, e);
    if w in s.procs {
      StateRecord(s, e, s', w);
    }
  }

  lemma InTheirQueue(s: Sys, q: int, w: int)
    requires Kept(s) && q in s.queues && w in s.procs
    ensures w in s.queues[q].waiters <==> s.procs[w].state.WaitQueue? && s.procs[w].state.queue == q
  {
    assert Houses(s, InQueue(q));
    assert w in List(s, InQueue(q)) <==> HomeOf(s.procs[w]) == InQueue(q);
  }

  lemma ResetRecord(s: Sys, e: Event, q: int, s': Sys, w: int)
    requires Kept(s) && ActiveReady(s) && q in s.queues && (e == Resets(q) || e == Deletes(q))
    requires WasResetTo(s, q, Reset(s, q), s') || WasResetTo(s, q, Deleted(s, q), s')
    ensures RecordAs(s, e, s', w)
  {
    hide Kept, WakeEach, TopOf, RecordAs, QueueOk;
    WaitersGone(s, q);
    var l := s.queues[q].waiters;
    WokenFacts(s, WakeEach(s, l, WasReset), l, WasReset);
    if w in s.procs {
      InTheirQueue(s, q, w);
    }
    WokenRecord(s, e, s', l, WasReset, w);
  }

  lemma InTheirList(s: Sys, h: Home, w: int)
    requires Kept(s) && HasList(s, h)
    ensures w in List(s, h) <==> w in s.procs && HomeOf(s.procs[w]) == h
  {
    assert Houses(s, h);
  }

  lemma FlushRecord(s: Sys, text: seq<char>, s': Sys, w: int)
    requires Kept(s) && ActiveReady(s) && WasFlushed(s, text, s')
    ensures RecordAs(s, Flushes(text), s', w)
  {
    hide Kept, WakeEach, TopOf, RecordAs;
    InTheirList(s, OnConsole, w);
    ReadersGone(s);
    WokenFacts(s, WakeEach(s, s.cons, ReadAgain), s.cons, ReadAgain);
    hide OnlyWoken;
    WokenRecord(s, Flushes(text), s', s.cons, ReadAgain, w);
  }

  lemma TimeRecord(s: Sys, clock: int, s': Sys, w: int)
    requires Kept(s) && ActiveReady(s) && WasTimed(s, clock, s')
    ensures RecordAs(s, Passes(clock), s', w)
  {
    hide Kept, WakeEach, Due, TopOf, RecordAs, SleepSorted;
    var l := Due(s.procs, s.sleepers, clock);
    SleepersKnown(s);
    Waiting(s, Asleep);
    DuePrefix(s.procs, s.sleepers, clock);
    DueIsAll(s.procs, s.sleepers, clock);
    InTheirList(s, Asleep, w);
    DueWoken(s, l);
    WokenRecord(s, Passes(clock), s', l, Nothing, w);
  }

  lemma DueWoken(s: Sys, l: seq<int>)
    requires Kept(s) && NoDups(l) && forall p :: p in l ==> p in s.procs && !s.procs[p].state.Zombie?
    ensures var t := WakeEach(s, l, Nothing);
            t.procs.Keys == s.procs.Keys
            && forall p :: p in s.procs ==> t.procs[p] == if p in l then Woken(s.procs[p], Nothing) else s.procs[p]
  {
    hide Kept, WakeEach;
    WakeList(s, l, Nothing);
    WokenFacts(s, WakeEach(s, l, Nothing), l, Nothing);
  }

  lemma SleepersKnown(s: Sys)
    requires Kept(s)
    ensures Homed(s) && SleepSorted(s.procs, s.sleepers)
  {
  }

  lemma SendRecord(s: Sys, q: int, m: int, s': Sys, w: int)
    requires Kept(s) && ActiveReady(s) && Did(s, Sends(q, m), s')
    ensures RecordAs(s, Sends(q, m), s', w)
  {
    hide Kept, HasHanded;
    if s.queues[q].length == 0 && s.queues[q].waiters != [] {
      HandRecord(s, q, m, s', w);
    } else {
      WokenRecord(s, Sends(q, m), s', [], Nothing, w);
    }
  }

  lemma HandRecord(s: Sys, q: int, m: int, s': Sys, w: int)
    requires Kept(s) && ActiveReady(s) && q in s.queues && s.queues[q].length == 0 && HasHanded(s, q, m, s')
    ensures RecordAs(s, Sends(q, m), s', w)
  {
    hide Kept, Wake, LastOfHighest, First, RecordAs;
    var v :| LastOfHighest(s.procs, s.queues[q].waiters, v) && s' == Urgent(HandedTo(s, q, v, m), v);
    FirstIs(s.procs, s.queues[q].waiters, v);
    LastIn(s.procs, s.queues[q].waiters, v);
    HandedKept(s, q, v, m);
    WokenFacts(s, Wake(s, v, Handed(q, m)), [v], Handed(q, m));
    hide OnlyWoken;
    WokenRecord(s, Sends(q, m), s', [v], Handed(q, m), w);
  }

  lemma ReceiveRecord(s: Sys, q: int, m: int, s': Sys, w: int)
    requires Kept(s) && ActiveReady(s) && Did(s, Receives(q, m), s')
    ensures RecordAs(s, Receives(q, m), s', w)
  {
    hide Kept, HasRefilled;
    if s.queues[q].length == s.queues[q].capacity && s.queues[q].waiters != [] {
      RefillRecord(s, q, m, s', w);
    } else {
      WokenRecord(s, Receives(q, m), s', [], Nothing, w);
    }
  }

  lemma RefillRecord(s: Sys, q: int, m: int, s': Sys, w: int)
    requires Kept(s) && ActiveReady(s) && q in s.queues && s.queues[q].length == s.queues[q].capacity
    requires HasRefilled(s, q, s')
    ensures RecordAs(s, Receives(q, m), s', w)
  {
    hide Kept, Wake, LastOfHighest, First;
    var v :| LastOfHighest(s.procs, s.queues[q].waiters, v) && v in s.procs && s.procs[v].state.WaitQueue?
             && s' == Urgent(Wake(Refilled(s, q, v), v, Accepted), v);
    FirstIs(s.procs, s.queues[q].waiters, v);
    LastIn(s.procs, s.queues[q].waiters, v);
    RefilledKept(s, q, v);
    var t := Refilled(s, q, v);
    WokenFacts(t, Wake(t, v, Accepted), [v], Accepted);
    WokenRecord(s, Receives(q, m), s', [v], Accepted, w);
  }

  lemma BirthRecord(s: Sys, p: int, k: int, s': Sys, w: int)
    requires Kept(s) && ActiveReady(s) && DidStart(s, p, k, s')
    ensures RecordAs(s, Starts(p, k), s', w)
  {
    EnterRing(s, p, Newborn(s.active, k));
    NoVictim(s, Starts(p, k));
    if w in s.procs && w != s.active {
      StateRecord(s, Starts(p, k), s', w);
    }
  }

  lemma RankRecord(s: Sys, p: int, k: int, s': Sys, w: int)
    requires Kept(s) && ActiveReady(s) && Did(s, Ranks(p, k), s')
    ensures RecordAs(s, Ranks(p, k), s', w)
  {
    RerankedKept(s, p, k);
    hide Reranked;
    NoVictim(s, Ranks(p, k));
    if w in s.procs {
      StateRecord(s, Ranks(p, k), s', w);
    }
  }

  lemma BlockRecord(s: Sys, e: Event, t: Sys, state: State, s': Sys, w: int)
    requires Kept(s) && ActiveReady(s) && t == s.(armed := t.armed) && Kept(t) && DidBlock(t, state, s')
    requires e == Blocks(state) || (e == AwaitsLine && state == WaitCons)
    ensures RecordAs(s, e, s', w)
  {
    hide Kept;
    BlockedProcs(t, state, s');
    NoVictim(s, e);
    if w in s.procs {
      StateRecord(s, e, s', w);
    }
  }

  lemma BlockedProcs(s: Sys, state: State, s': Sys)
    requires Kept(s) && ActiveReady(s) && DidBlock(s, state, s')
    ensures s'.procs == s.procs[s.active := s.procs[s.active].(state := state)]
  {
    assert HasHome(s, s.active);
    MoveActive(s, s.active, s.procs[s.active].(state := state));
  }

  lemma ReapRecord(s: Sys, t: Sys, e: Event, c: int, s': Sys, w: int)
    requires Kept(s) && ActiveReady(s) && c in s.procs && c != s.active && Kept(t)
    requires (e.Reaps? && e.pid == c && t == s) || (e.ReapsLater? && e.pid == c && t == Quiet(s))
    requires s' == Freed(t, c)
    ensures RecordAs(s, e, s', w)
  {
    FreedProcs(t, c);
    NobodyOnly(s);
    assert Vanished(s, e) == {c};
  }

  // ----- deaths -----

  /** No process outside a subtree has a child in it, its root aside. */
  lemma OutsideChildren(s: Sys, p: int, w: int)
    requires Kept(s) && p in s.procs && w in s.procs && w !in Subtree(s, p)
    ensures forall c :: c in s.procs[w].children ==> c !in Subtree(s, p) - {p}
  {
    assert Branch(s.procs, s.depth, w);
    forall c | c in s.procs[w].children
      ensures c !in Subtree(s, p) - {p}
    {
      ChildOf(s.procs, s.depth, w, c);
      StepUp(s.procs, s.depth, c, p);
    }
  }

  /** A kill that does not meet the active process: what it reaches is the subtree. */
  lemma VanishedBelow(s: Sys, e: Event, p: int)
    requires Kept(s) && ActiveReady(s) && p in s.procs && s.active !in Subtree(s, p) - {p}
    requires (e.Exits? && p == s.active) || (e == Kills(p) && p != s.active)
    ensures Vanished(s, e) == Subtree(s, p) - {p} && Victim(s, e) == p
  {
    ReachedAll(s, p);
    hide ReachedSet;
    StrictExcludes(s, p);
    forall x | x in Subtree(s, p)
      ensures p != s.active ==> s.active !in Subtree(s, x)
    {
      BelowBelow(s, p, x);
    }
  }

  lemma BelowBelow(s: Sys, p: int, x: int)
    requires Kept(s) && p in s.procs && x in Subtree(s, p)
    ensures Subtree(s, x) <= Subtree(s, p)
  {
    forall y | y in Subtree(s, x)
      ensures y in Subtree(s, p)
    {
      AncestorTrans(Parents(s.procs), s.depth, y, x, p);
    }
  }

  lemma DeadRecord(s: Sys, e: Event, p: int, code: int, s': Sys, w: int)
    requires Kept(s) && ActiveReady(s) && p in s.procs && s.active !in Subtree(s, p) - {p}
    requires (e == Exits(code) && p == s.active) || (e == Kills(p) && p != s.active && code == 0)
    requires p in ParentTold(s, p).procs && HasHome(ParentTold(s, p), p)
    requires s'.procs == Killed(ParentTold(s, p), p, code).procs
    ensures RecordAs(s, e, s', w)
  {
    hide Killed, Subtree, ReachedSet, Queued, SleepSorted, Homed;
    var t := ParentTold(s, p);
    ToldKept(s, p);
    KilledKept(t, p, code);
    VanishedBelow(s, e, p);
    if w in s.procs && w !in Subtree(s, p) - {p} {
      KilledProcs(t, p, code, w);
      if w != p {
        OutsideChildren(s, p, w);
        ToldState(s, p, w);
        StateRecord(s, e, s', w);
      }
    }
  }

  lemma ToldState(s: Sys, p: int, w: int)
    requires Kept(s) && p in s.procs && w in s.procs
    ensures ParentTold(s, p).procs.Keys == s.procs.Keys
    ensures ParentTold(s, p).procs[w] == s.procs[w].(state :=
        if w in Waking(s.procs, p) then Sched(ReapChild(p)) else s.procs[w].state)
  {
    ToldKept(s, p);
  }

  /** No process that a kill does not reach has a child that it does, the target aside. */
  lemma UnreachedChildren(s: Sys, p: int, w: int)
    requires Kept(s) && p in s.procs && w in s.procs && w !in ReachedSet(s, p)
    ensures forall c :: c in s.procs[w].children ==> c !in ReachedSet(s, p) || c == p
  {
    forall c | c in s.procs[w].children && c in ReachedSet(s, p) && c != p
      ensures false
    {
      ChildOf(s.procs, s.depth, w, c);
      ReachedUp(s.procs, s.depth, p, s.active, c);
    }
  }

  lemma VanishedAway(s: Sys, p: int)
    requires Kept(s) && s.active in s.procs && p in s.procs && s.active in Subtree(s, p)
    ensures Victim(s, Kills(p)) == s.active
    ensures forall x :: x in Vanished(s, Kills(p)) <==> x in ReachedBy(s, p) && s.active !in Subtree(s, x)
    ensures forall x :: x in ReachedSet(s, p) <==> x in ReachedBy(s, p)
    ensures p in ReachedBy(s, p) && s.active in ReachedBy(s, p) && s.active in Subtree(s, s.active)
  {
    hide Subtree, Reached;
    SelfBelow(s, s.active);
    BelowIsSubtree(s, p);
    ReachedMembers(s.procs, s.depth, p, s.active);
    ReachedBelow(s.procs, s.depth, p, s.active);
  }

  /** What a kill that switched away has made of a process, as it is stored. */
  lemma AwayLeft(s: Sys, p: int, r: Sys, w: int)
    requires SwitchedAway(s, p, r) && Kept(s) && NoneDying(s.procs) && s.active in Subtree(s, p) && w in s.procs
    requires s.active in s.procs
    ensures w !in ReachedBy(s, p) ==> w in r.procs && AsStored(r).procs[w] == s.procs[w]
    ensures w in ReachedBy(s, p) && s.active !in Subtree(s, w) ==> w !in r.procs
    ensures w in ReachedBy(s, p) && s.active in Subtree(s, w) ==> w in r.procs
    ensures w in ReachedBy(s, p) && s.active in Subtree(s, w) ==>
        AsStored(r).procs[w] == if w == s.active then s.procs[w].(state := Zombie(0), children := [])
            else s.procs[w].(children := Without(s.procs[w].children, Gone(s, p)))
  {
    hide Kept, Subtree, SwitchedTo, Reached;
    KeptHomed(s);
    SelfBelow(s, s.active);
    assert LeftAs(s, p, r, w);
  }

  lemma GoneIsVanished(s: Sys, t: Sys, p: int)
    requires Kept(s) && Kept(t) && s.active in s.procs && p in s.procs && p in t.procs && t.active == s.active
    requires s.active in Subtree(s, p) && ReachedSet(t, p) == ReachedSet(s, p)
    requires forall x :: Subtree(t, x) == Subtree(s, x)
    ensures Gone(t, p) == Vanished(s, Kills(p))
    ensures forall x :: x in ReachedBy(t, p) <==> x in ReachedBy(s, p)
  {
    VanishedAway(s, p);
    hide Subtree, Reached, Vanished;
    forall x
      ensures x in ReachedBy(t, p) <==> x in ReachedBy(s, p)
    {
      assert x in ReachedSet(t, p) <==> x in ReachedSet(s, p);
    }
  }

  /** A kill that switches away. */
  lemma AwayRecord(s: Sys, p: int, s': Sys, w: int)
    requires Steady(s) && ActiveReady(s) && DidKill(s, p, s') && s.active in Subtree(s, p)
    ensures RecordAs(s, Kills(p), s', w)
  {
    hide Kept, Subtree, SwitchedTo, ReachedSet, ParentTold, LeftAs, NoneDying, Vanished, ReachedBy, RecordAs,
        OutOfLists,
        Waking, SwitchedAway;
    KeptHomed(s);
    ToldZombies(s, p);
    ToldPath(s, p);
    ToldLists(s, p);
    VanishedAway(s, p);
    var t := ParentTold(s, p);
    var r :| SwitchedAway(t, p, r) && s' == AsStored(r);
    AwayKeys(t, p, r);
    GoneIsVanished(s, t, p);
    if w in s.procs {
      ToldState(s, p, w);
      AwayLeft(t, p, r, w);
      if w !in ReachedBy(s, p) {
        UnreachedChildren(s, p, w);
        AwayOutside(s, p, s', w);
      } else {
        AwayInside(s, p, s', w);
      }
    } else {
      AwayNew(s, p, s', w);
    }
  }

  lemma AwayKeys(t: Sys, p: int, r: Sys)
    requires SwitchedAway(t, p, r)
    ensures r.procs.Keys <= t.procs.Keys && AsStored(r).procs.Keys == r.procs.Keys
  {
  }

  lemma AwayNew(s: Sys, p: int, s': Sys, w: int)
    requires Kept(s) && s.active in s.procs && w !in s.procs && w !in s'.procs
    ensures RecordAs(s, Kills(p), s', w)
  {
  }

  lemma AwayOutside(s: Sys, p: int, s': Sys, w: int)
    requires Kept(s) && s.active in s.procs && p in s.procs && s.active in Subtree(s, p) && w in s.procs
    requires w !in ReachedBy(s, p) && w in s'.procs
    requires s'.procs[w] ==
        s.procs[w].(state := if w in Waking(s.procs, p) then Sched(ReapChild(p)) else s.procs[w].state)
    requires forall c :: c in s.procs[w].children ==> c !in ReachedSet(s, p) || c == p
    ensures RecordAs(s, Kills(p), s', w)
  {
    VanishedAway(s, p);
    hide Kept, Subtree, ReachedSet, ReachedBy, Vanished;
    StateRecord(s, Kills(p), s', w);
  }

  lemma AwayInside(s: Sys, p: int, s': Sys, w: int)
    requires Kept(s) && s.active in s.procs && p in s.procs && s.active in Subtree(s, p) && w in s.procs
    requires w in ReachedBy(s, p) && w !in Waking(s.procs, p)
    requires s.active !in Subtree(s, w) ==> w !in s'.procs
    requires s.active in Subtree(s, w) ==> w in s'.procs
    requires s.active in Subtree(s, w) ==>
        s'.procs[w] == if w == s.active then s.procs[w].(state := Zombie(0), children := [])
            else s.procs[w].(children := Without(s.procs[w].children, Vanished(s, Kills(p))))
    ensures RecordAs(s, Kills(p), s', w)
  {
    VanishedAway(s, p);
    hide Kept, Subtree, ReachedSet, ReachedBy, Vanished;
  }

  lemma LifeRecord(s: Sys, e: Event, s': Sys, w: int)
    requires Steady(s) && ActiveReady(s) && Did(s, e, s')
    requires e.Starts? || e.Exits? || e.Kills? || e.Reaps? || e.ReapsLater? || e.Resumes? || e.Ranks? || e.Blocks?
    ensures RecordAs(s, e, s', w)
  {
    hide Kept, NoneDying, RecordAs, Subtree, ParentTold, Killed;
    match e
    case Starts(p, k) => BirthRecord(s, p, k, s', w);
    case Exits(code) => ExitRecord(s, code, s', w);
    case Kills(p) => KillRecord(s, p, s', w);
    case Reaps(c, code) => ReapsOther(s, c, code); ReapRecord(s, s, e, c, s', w);
    case ReapsLater(c, code) => QuietKept(s); ReapRecord(s, Quiet(s), e, c, s', w);
    case Resumes(_) => QuietRecord(s, e, s', w);
    case Ranks(p, k) => RankRecord(s, p, k, s', w);
    case Blocks(state) => BlockRecord(s, e, s, state, s', w);
  }

  lemma ReapsOther(s: Sys, c: int, code: int)
    requires ActiveReady(s) && IsZombie(s.procs, c, code)
    ensures c != s.active
  {
  }

  lemma QuietRecord(s: Sys, e: Event, s': Sys, w: int)
    requires Kept(s) && ActiveReady(s) && e.Resumes? && s' == Quiet(s)
    ensures RecordAs(s, e, s', w)
  {
    NoVictim(s, e);
    if w in s.procs {
      StateRecord(s, e, s', w);
    }
  }

  lemma ExitRecord(s: Sys, code: int, s': Sys, w: int)
    requires Steady(s) && ActiveReady(s) && s' == Exited(s, code)
    ensures RecordAs(s, Exits(code), s', w)
  {
    hide Kept, NoneDying, RecordAs, Subtree, ParentTold, Killed;
    KeptHomed(s);
    ToldZombies(s, s.active);
    ExitedIs(s, code);
    StrictExcludes(s, s.active);
    DeadRecord(s, Exits(code), s.active, code, s', w);
  }

  lemma KillRecord(s: Sys, p: int, s': Sys, w: int)
    requires Steady(s) && ActiveReady(s) && DidKill(s, p, s')
    ensures RecordAs(s, Kills(p), s', w)
  {
    hide Kept, NoneDying, RecordAs, Subtree, ParentTold, Killed, AwayAfterKill;
    KeptHomed(s);
    if s.active in Subtree(s, p) {
      AwayRecord(s, p, s', w);
    } else {
      DeadRecord(s, Kills(p), p, 0, s', w);
    }
  }

  lemma SameRecord(s: Sys, e: Event, s': Sys, w: int)
    requires Kept(s) && ActiveReady(s) && s'.procs == s.procs
    requires e.Creates? || e.ReadsLine? || e.Ticks? || e.Refuses?
    ensures RecordAs(s, e, s', w)
  {
    NoVictim(s, e);
    if w in s.procs {
      StateRecord(s, e, s', w);
    }
  }

  lemma OtherRecord(s: Sys, e: Event, s': Sys, w: int)
    requires Steady(s) && ActiveReady(s) && Did(s, e, s')
    requires !(e.Starts? || e.Exits? || e.Kills? || e.Reaps? || e.ReapsLater? || e.Resumes? || e.Ranks? || e.Blocks?)
    ensures RecordAs(s, e, s', w)
  {
    hide Kept, NoneDying, RecordAs;
    match e
    case Creates(q, n) => CreateKept(s, q, n, s'); SameRecord(s, e, s', w);
    case Resets(q) => ResetRecord(s, e, q, s', w);
    case Deletes(q) => ResetRecord(s, e, q, s', w);
    case Sends(q, m) => SendRecord(s, q, m, s', w);
    case Receives(q, m) => ReceiveRecord(s, q, m, s', w);
    case ReadsLine(_, _) => SameRecord(s, e, s', w);
    case AwaitsLine => SetConsoleKept(s, "", true); BlockRecord(s, e, s.(armed := true), WaitCons, s', w);
    case Flushes(text) => FlushRecord(s, text, s', w);
    case Passes(clock) => TimeRecord(s, clock, s', w);
    case Ticks => SameRecord(s, e, s', w);
    case Refuses => SameRecord(s, e, s', w);
  }

  /** Every event changes exactly these records in exactly this way: a process vanishes, or keeps its parent, and gets
      the state, priority and children that the event gives it, mostly those that it had. */
  lemma EventRecords(s: Sys, e: Event, s': Sys, w: int)
    requires Steady(s) && ActiveReady(s) && Did(s, e, s')
    ensures RecordAs(s, e, s', w)
  {
    hide Kept, NoneDying, RecordAs, Did, ActiveReady;
    if e.Starts? || e.Exits? || e.Kills? || e.Reaps? || e.ReapsLater? || e.Resumes? || e.Ranks? || e.Blocks? {
      LifeRecord(s, e, s', w);
    } else {
      OtherRecord(s, e, s', w);
    }
  }

  // ----- the processor after an event -----

  /** Some processes were woken: the first of the most urgent ones runs if it outranks the active process, which else
      runs on. */
  ghost predicate Prefers(s: Sys, l: seq<int>, x: int)
    requires s.active in s.procs
  {
    if forall p :: p in l && p in s.procs ==> s.procs[p].priority <= s.procs[s.active].priority then x == s.active
    else exists i :: 0 <= i < |l| && x == l[i] && FirstHighest(s.procs, l, i)
  }

  ghost predicate FirstHighest(ps: Procs, l: seq<int>, i: int)
    requires 0 <= i < |l|
  {
    && (forall j :: 0 <= j < |l| ==> l[j] in ps)
    && (forall j :: 0 <= j < |l| ==> ps[l[j]].priority <= ps[l[i]].priority)
    && forall j :: 0 <= j < i ==> ps[l[j]].priority < ps[l[i]].priority
  }

  /** A process that gives the processor away gives it to the next one in its ring, around the end; when it is alone, to
      the head of the highest ring below that is not empty, if there is one. */
  ghost predicate RunsNext(ring: seq<int>, a: int, rings: seq<seq<int>>, k: int, x: int)
    requires k <= |rings|
  {
    if ring != [a] then exists i :: 0 <= i < |ring| && ring[i] == a && x == ring[if i + 1 == |ring| then 0 else i + 1]
    else if forall j :: 0 <= j < k ==> rings[j] == [] then x == NOBODY
    else exists j :: 0 <= j < k && rings[j] != [] && x == rings[j][0] && forall i :: j < i < k ==> rings[i] == []
  }

  lemma AfterIs(l: seq<int>, p: int)
    requires p in l
    ensures exists i :: 0 <= i < |l| && l[i] == p && After(l, p) == l[if i + 1 == |l| then 0 else i + 1]
  {
    var i := IndexOf(l, p);
    assert After(l, p) == l[if i + 1 == |l| then 0 else i + 1];
  }

  lemma {:induction false} HighestIs(rings: seq<seq<int>>, k: nat)
    requires k <= |rings|
    ensures if forall j :: 0 <= j < k ==> rings[j] == [] then HighestBelow(rings, k) == NOBODY
            else exists j :: 0 <= j < k && rings[j] != []
                             && HighestBelow(rings, k) == rings[j][0] && forall i :: j < i < k ==> rings[i] == []
  {
    if k > 0 && rings[k - 1] == [] {
      HighestIs(rings, k - 1);
      if !(forall j :: 0 <= j < k - 1 ==> rings[j] == []) {
        var j :| 0 <= j < k - 1 && rings[j] != [] && HighestBelow(rings, k - 1) == rings[j][0]
                 && forall i :: j < i < k - 1 ==> rings[i] == [];
        assert HighestBelow(rings, k) == rings[j][0] && forall i :: j < i < k ==> rings[i] == [];
      }
    }
  }

  /** What process_sched_ring_remove and process_sched_advance choose together. */
  lemma ChoiceIs(ring: seq<int>, a: int, rings: seq<seq<int>>, k: nat)
    requires NoDups(ring) && a in ring && NOBODY !in ring && k <= |rings|
    ensures RunsNext(ring, a, rings, k, if NextOf(ring, a) != NOBODY then NextOf(ring, a) else HighestBelow(rings, k))
  {
    AfterInRing(ring, a);
    AfterIs(ring, a);
    HighestIs(rings, k);
  }

  /** The ring of a priority after the parent of a dying process was told. */
  ghost function ToldRing(s: Sys, z: int, k: int): seq<int>
    requires 0 <= k < |s.rings|
  {
    var w := Waking(s.procs, z);
    (if w != [] && w[0] in s.procs && s.procs[w[0]].priority == k then w else []) + s.rings[k]
  }

  /** Who runs after an event. */
  ghost predicate RunsAs(s: Sys, e: Event, s': Sys)
    requires s.active in s.procs && 0 <= s.procs[s.active].priority < |s.rings| == |s'.rings|
  {
    var a, k := s.active, s.procs[s.active].priority;
    match e
    case Starts(p, priority) => s'.active == if priority > k then p else a
    case Exits(_) =>
      var w := Waking(s.procs, a);
      if w != [] && w[0] in s.procs && s.procs[w[0]].priority > k then s'.active == w[0]
      else RunsNext(ToldRing(s, a, k), a, s'.rings, k, s'.active)
    case Kills(p) =>
      if a in Subtree(s, p)
      then RunsNext(Without(ToldRing(s, p, k), ReachedFrom(s, p) - Subtree(s, a)), a, s'.rings, k, s'.active)
      else s'.active == a
    case Ranks(p, priority) =>
      if p == a && priority < k then RunsNext(s.rings[k], a, s'.rings, k, s'.active) else s'.active == a
    case Blocks(_) => RunsNext(s.rings[k], a, s'.rings, k, s'.active)
    case AwaitsLine => RunsNext(s.rings[k], a, s'.rings, k, s'.active)
    case Ticks => if s.rings[k] == [a] then s'.active == a else RunsNext(s.rings[k], a, s'.rings, k, s'.active)
    case Resets(_) => Prefers(s, Movers(s, e), s'.active)
    case Deletes(_) => Prefers(s, Movers(s, e), s'.active)
    case Sends(_, _) => Prefers(s, Movers(s, e), s'.active)
    case Receives(_, _) => Prefers(s, Movers(s, e), s'.active)
    case Flushes(_) => Prefers(s, Movers(s, e), s'.active)
    case Passes(_) => Prefers(s, Movers(s, e), s'.active)
    case _ => s'.active == a
  }

  lemma ActiveRing(s: Sys)
    requires Kept(s) && ActiveReady(s)
    ensures var k := s.procs[s.active].priority;
            && 0 <= k < |s.rings| && s.active in s.rings[k] && NoDups(s.rings[k]) && NOBODY !in s.rings[k]
            && NOBODY !in s.procs && forall x :: x in s.rings[k] ==> x in s.procs
  {
    InItsRing(s, s.active);
    NobodyOnly(s);
  }

  lemma PreferredIs(s: Sys, l: seq<int>, top: int, t: Sys)
    requires Kept(s) && s.active in s.procs && TopOf(s.procs, l, top) && t.active == s.active
    requires t.procs.Keys == s.procs.Keys && forall p :: p in s.procs ==> t.procs[p].priority == s.procs[p].priority
    ensures Prefers(s, l, Urgent(t, top).active)
  {
    NobodyOnly(s);
    if l != [] {
      var i :| 0 <= i < |l| && l[i] == top && forall j :: 0 <= j < i ==>
          l[j] in s.procs && s.procs[l[j]].priority < s.procs[top].priority;
      forall j | 0 <= j < |l|
        ensures l[j] in s.procs && s.procs[l[j]].priority <= s.procs[l[i]].priority
      {
        assert l[j] in l;
      }
      assert FirstHighest(s.procs, l, i);
    }
  }

  lemma OneTop(s: Sys, w: int)
    requires w in s.procs
    ensures TopOf(s.procs, [w], w)
  {
    assert [w][0] == w;
    assert AheadLower(s.procs, [w], w);
  }

  lemma WakeRuns(s: Sys, l: seq<int>, r: Resume)
    requires Kept(s) && NoDups(l) && !r.ReapChild? && forall p :: p in l ==> p in s.procs && !s.procs[p].state.Zombie?
    ensures var t := WakeEach(s, l, r);
            t.active == s.active && t.procs.Keys == s.procs.Keys && t.queues.Keys == s.queues.Keys
            && forall p :: p in s.procs ==> t.procs[p].priority == s.procs[p].priority
  {
    hide Kept, WakeEach;
    WakeList(s, l, r);
    WokenFacts(s, WakeEach(s, l, r), l, r);
  }

  lemma ResetRuns(s: Sys, e: Event, s': Sys)
    requires Kept(s) && ActiveReady(s) && Did(s, e, s') && (e.Resets? || e.Deletes?)
    ensures Prefers(s, Movers(s, e), s'.active)
  {
    hide Kept, WakeEach, TopOf, Prefers;
    var q := e.queue;
    var l := s.queues[q].waiters;
    KeptHomed(s);
    Waiting(s, InQueue(q));
    WakeRuns(s, l, WasReset);
    WaitersGone(s, q);
    if e.Resets? {
      var top :| TopOf(s.procs, l, top) && s' == Urgent(Reset(s, q), top);
      PreferredIs(s, l, top, Reset(s, q));
    } else {
      var top :| TopOf(s.procs, l, top) && s' == Urgent(Deleted(s, q), top);
      PreferredIs(s, l, top, Deleted(s, q));
    }
  }

  lemma FlushRuns(s: Sys, text: seq<char>, s': Sys)
    requires Kept(s) && ActiveReady(s) && WasFlushed(s, text, s')
    ensures Prefers(s, s.cons, s'.active)
  {
    hide Kept, WakeEach, TopOf, Prefers, Urgent;
    KeptHomed(s);
    Waiting(s, OnConsole);
    WakeRuns(s, s.cons, ReadAgain);
    var top :| TopOf(s.procs, s.cons, top) && s' == Urgent(LineFlushed(s, text), top);
    PreferredIs(s, s.cons, top, LineFlushed(s, text));
  }

  lemma TimeRuns(s: Sys, clock: int, s': Sys)
    requires Kept(s) && ActiveReady(s) && WasTimed(s, clock, s')
    ensures Prefers(s, Awake(s.procs, s.sleepers, clock), s'.active)
  {
    hide Kept, WakeEach, TopOf, Prefers, Urgent, Due, SleepSorted;
    var l := Due(s.procs, s.sleepers, clock);
    SleepersKnown(s);
    Waiting(s, Asleep);
    DuePrefix(s.procs, s.sleepers, clock);
    DueAreAwake(s.procs, s.sleepers, clock);
    WakeRuns(s, l, Nothing);
    var top :| TopOf(s.procs, l, top) && s' == Urgent(TimeCame(s, clock), top);
    PreferredIs(s, l, top, TimeCame(s, clock));
  }

  lemma SendRuns(s: Sys, q: int, m: int, s': Sys)
    requires Kept(s) && ActiveReady(s) && Did(s, Sends(q, m), s')
    ensures Prefers(s, Movers(s, Sends(q, m)), s'.active)
  {
    hide Kept, HasHanded, First;
    if s.queues[q].length == 0 && s.queues[q].waiters != [] {
      HandRuns(s, q, m, s');
    } else {
      NoFirst(s.procs);
    }
  }

  lemma NoFirst(ps: Procs)
    ensures First(ps, []) == []
  {
  }

  lemma HandRuns(s: Sys, q: int, m: int, s': Sys)
    requires Kept(s) && ActiveReady(s) && q in s.queues && s.queues[q].length == 0 && HasHanded(s, q, m, s')
    ensures Prefers(s, First(s.procs, s.queues[q].waiters), s'.active)
  {
    hide Kept, Wake, LastOfHighest, First, Prefers, Urgent, TopOf;
    var w :| LastOfHighest(s.procs, s.queues[q].waiters, w) && s' == Urgent(HandedTo(s, q, w, m), w);
    FirstIs(s.procs, s.queues[q].waiters, w);
    LastIn(s.procs, s.queues[q].waiters, w);
    HandedKept(s, q, w, m);
    WokenFacts(s, Wake(s, w, Handed(q, m)), [w], Handed(q, m));
    OneTop(s, w);
    PreferredIs(s, [w], w, HandedTo(s, q, w, m));
  }

  lemma ReceiveRuns(s: Sys, q: int, m: int, s': Sys)
    requires Kept(s) && ActiveReady(s) && Did(s, Receives(q, m), s')
    ensures Prefers(s, Movers(s, Receives(q, m)), s'.active)
  {
    hide Kept, HasRefilled, First;
    if s.queues[q].length == s.queues[q].capacity && s.queues[q].waiters != [] {
      RefillRuns(s, q, s');
    } else {
      NoFirst(s.procs);
    }
  }

  lemma RefillRuns(s: Sys, q: int, s': Sys)
    requires Kept(s) && ActiveReady(s) && q in s.queues && s.queues[q].length == s.queues[q].capacity
    requires HasRefilled(s, q, s')
    ensures Prefers(s, First(s.procs, s.queues[q].waiters), s'.active)
  {
    hide Kept, Wake, LastOfHighest, First, Prefers, Urgent, TopOf;
    var w :| LastOfHighest(s.procs, s.queues[q].waiters, w) && w in s.procs && s.procs[w].state.WaitQueue?
             && s' == Urgent(Wake(Refilled(s, q, w), w, Accepted), w);
    FirstIs(s.procs, s.queues[q].waiters, w);
    LastIn(s.procs, s.queues[q].waiters, w);
    RefilledKept(s, q, w);
    WokenFacts(Refilled(s, q, w), Wake(Refilled(s, q, w), w, Accepted), [w], Accepted);
    OneTop(s, w);
    PreferredIs(s, [w], w, Wake(Refilled(s, q, w), w, Accepted));
  }

  lemma BlockRuns(s: Sys, state: State, s': Sys)
    requires Kept(s) && ActiveReady(s) && DidBlock(s, state, s')
    ensures var k := s.procs[s.active].priority;
            0 <= k < |s.rings| == |s'.rings| && RunsNext(s.rings[k], s.active, s'.rings, k, s'.active)
  {
    hide Kept, Move, RunsNext, NextOf;
    ActiveRing(s);
    var a, k, pc := s.active, s.procs[s.active].priority, s.procs[s.active].(state := state);
    MoveActive(s, a, pc);
    MoveLists(s, a, pc, Nowhere);
    ChoiceIs(s.rings[k], a, s'.rings, k);
  }

  lemma RankRuns(s: Sys, p: int, k: int, s': Sys)
    requires Kept(s) && ActiveReady(s) && Did(s, Ranks(p, k), s')
    ensures 0 <= s.procs[s.active].priority < |s.rings| == |s'.rings| && RunsAs(s, Ranks(p, k), s')
  {
    hide Kept, RunsNext, NextOf, Reranked;
    ActiveRing(s);
    KeptHomed(s);
    RerankedKept(s, p, k);
    KeptRings(Reranked(s, p, k));
    KeptRings(s);
    if p == s.active && k < s.procs[p].priority {
      ChoiceIs(s.rings[s.procs[p].priority], p, s'.rings, s.procs[p].priority);
    }
  }

  lemma ToldRingIs(s: Sys, p: int, k: int)
    requires Kept(s) && p in s.procs && 0 <= k < |s.rings|
    ensures |ParentTold(s, p).rings| == |s.rings| && ParentTold(s, p).rings[k] == ToldRing(s, p, k)
  {
    if Awaited(s.procs, p) {
      var a := s.procs[p].parent;
      assert HasHome(s, a);
      MoveLists(s, a, s.procs[a].(state := Sched(ReapChild(p))), Ring(k));
    }
  }

  lemma ExitRuns(s: Sys, code: int, s': Sys)
    requires Kept(s) && ActiveReady(s) && s' == Exited(s, code)
    ensures 0 <= s.procs[s.active].priority < |s.rings| == |s'.rings| && RunsAs(s, Exits(code), s')
  {
    hide Kept, ParentTold, Killed, RunsNext, ToldRing, Subtree;
    var a, k := s.active, s.procs[s.active].priority;
    ActiveRing(s);
    KeptHomed(s);
    ToldKept(s, a);
    var t := ParentTold(s, a);
    ToldRingIs(s, a, k);
    InRingAgain(t);
    ExitedIs(s, code);
    KilledKept(t, a, code);
    KilledProcs(t, a, code, a);
    KeptRings(s);
    KeptRings(Killed(t, a, code));
    NobodyOnly(Killed(t, a, code));
    NobodyOnly(s);
    ExitActive(s, code);
    ChoiceIs(t.rings[k], a, s'.rings, k);
  }

  lemma InRingAgain(t: Sys)
    requires Kept(t) && ActiveReady(t)
    ensures var k := t.procs[t.active].priority;
        0 <= k < |t.rings| && t.active in t.rings[k] && NoDups(t.rings[k]) && NOBODY !in t.rings[k]
  {
    ActiveRing(t);
  }

  lemma ExitActive(s: Sys, code: int)
    requires Kept(s) && ActiveReady(s)
    ensures Kept(ParentTold(s, s.active)) && s.active in ParentTold(s, s.active).procs
    ensures var k, t := s.procs[s.active].priority, ParentTold(s, s.active);
            && 0 <= k < |t.rings| && s.active in t.rings[k] && k <= |Exited(s, code).rings|
            && Exited(s, code).active == if Awaited(s.procs, s.active) && s.procs[s.procs[s.active].parent].priority > k
                then s.procs[s.active].parent
                else if NextOf(t.rings[k], s.active) != NOBODY then NextOf(t.rings[k], s.active)
                else HighestBelow(Exited(s, code).rings, k)
  {
    hide Tree, Queued, SleepSorted, ParentTold, Killed;
    var a := s.active;
    ToldKept(s, a);
    InItsRing(ParentTold(s, a), a);
    KilledKept(ParentTold(s, a), a, code);
    KilledProcs(ParentTold(s, a), a, code, a);
    KeptRings(Killed(ParentTold(s, a), a, code));
    NobodyOnly(s);
  }

  lemma KillRuns(s: Sys, p: int, s': Sys)
    requires Steady(s) && ActiveReady(s) && DidKill(s, p, s')
    ensures 0 <= s.procs[s.active].priority < |s.rings| == |s'.rings| && RunsAs(s, Kills(p), s')
  {
    hide Kept, ParentTold, Killed, RunsNext, ToldRing, Subtree, NoneDying, LeftAs, OutOfLists, ReachedSet, NextOf;
    ActiveRing(s);
    KeptHomed(s);
    KeptRings(s);
    ToldLists(s, p);
    ToldKept(s, p);
    ToldRingIs(s, p, s.procs[s.active].priority);
    var t := ParentTold(s, p);
    if s.active in Subtree(s, p) {
      var r :| SwitchedAway(t, p, r) && s' == AsStored(r);
      KeptRings(r);
      ToldPath(s, p);
      BeforeIs(s, t, p);
      var k := s.procs[s.active].priority;
      var ring := Without(t.rings[k], BeforeActive(t, p));
      RingLeft(t, BeforeActive(t, p));
      ChoiceIs(ring, s.active, r.rings, k);
    } else {
      KilledKept(t, p, 0);
      KeptRings(s');
    }
  }

  lemma RingLeft(t: Sys, before: set<int>)
    requires Kept(t) && ActiveReady(t)
    ensures var k := t.procs[t.active].priority;
        0 <= k < |t.rings| && NoDups(Without(t.rings[k], before)) && NOBODY !in Without(t.rings[k], before)
  {
    ActiveRing(t);
    WithoutNoDups(t.rings[t.procs[t.active].priority], before);
  }

  lemma BeforeIs(s: Sys, t: Sys, p: int)
    requires Kept(s) && Kept(t) && p in s.procs && p in t.procs && t.active == s.active
    requires ReachedSet(t, p) == ReachedSet(s, p) && forall x :: Subtree(t, x) == Subtree(s, x)
    ensures BeforeActive(t, p) == ReachedFrom(s, p) - Subtree(s, s.active)
  {
    hide Subtree, Reached;
    forall x
      ensures x in BeforeActive(t, p) <==> x in ReachedFrom(s, p) - Subtree(s, s.active)
    {
      assert x in ReachedSet(t, p) <==> x in ReachedSet(s, p);
      assert x in ReachedSet(t, p) <==> x in ReachedBy(t, p);
    }
  }

  /** After every event exactly this process runs: somebody who was woken takes over only when it outranks the active
      process, and a process that gives way is followed by the next one in its ring. */
  lemma EventRuns(s: Sys, e: Event, s': Sys)
    requires Steady(s) && ActiveReady(s) && Did(s, e, s')
    ensures 0 <= s.procs[s.active].priority < |s.rings| == |s'.rings| && RunsAs(s, e, s')
  {
    hide Kept, NoneDying, RunsAs, Movers, Rearranged, Did;
    ActiveRing(s);
    EventLists(s, e, s');
    RingsStay(s, e, s');
    if e.Resets? || e.Deletes? || e.Sends? || e.Receives? || e.Flushes? || e.Passes? {
      WakingRuns(s, e, s');
    } else {
      OtherRuns(s, e, s');
    }
  }

  lemma WakingRuns(s: Sys, e: Event, s': Sys)
    requires Kept(s) && ActiveReady(s) && Did(s, e, s')
    requires e.Resets? || e.Deletes? || e.Sends? || e.Receives? || e.Flushes? || e.Passes?
    requires 0 <= s.procs[s.active].priority < |s.rings| == |s'.rings|
    ensures RunsAs(s, e, s')
  {
    hide Kept, Prefers, RunsNext, Movers, HasSent, HasReceived, WasResetTo, WasFlushed, WasTimed;
    match e
    case Resets(_) => ResetRuns(s, e, s');
    case Deletes(_) => ResetRuns(s, e, s');
    case Sends(q, m) => SendRuns(s, q, m, s');
    case Receives(q, m) => ReceiveRuns(s, q, m, s');
    case Flushes(text) => FlushRuns(s, text, s'); MoversAre(s, e);
    case Passes(clock) => TimeRuns(s, clock, s'); MoversAre(s, e);
  }

  lemma OtherRuns(s: Sys, e: Event, s': Sys)
    requires Steady(s) && ActiveReady(s) && Did(s, e, s')
    requires !(e.Resets? || e.Deletes? || e.Sends? || e.Receives? || e.Flushes? || e.Passes?)
    requires 0 <= s.procs[s.active].priority < |s.rings| == |s'.rings|
    ensures RunsAs(s, e, s')
  {
    hide Kept, NoneDying, Prefers, RunsNext, Movers;
    match e
    case Starts(p, k) => EnterRing(s, p, Newborn(s.active, k));
    case Exits(code) => ExitRuns(s, code, s');
    case Kills(p) => KillRuns(s, p, s');
    case Ranks(p, k) => RankRuns(s, p, k, s');
    case Blocks(state) => BlockRuns(s, state, s');
    case AwaitsLine => SetConsoleKept(s, "", true); BlockRuns(s.(armed := true), WaitCons, s');
    case Ticks => TickRuns(s, s');
    case _ => SameActive(s, e, s');
  }

  lemma RingsStay(s: Sys, e: Event, s': Sys)
    requires Rearranged(s, s', Movers(s, e), Struck(s, e))
    ensures |s'.rings| == |s.rings|
  {
  }

  lemma MoversAre(s: Sys, e: Event)
    ensures e.Flushes? ==> Movers(s, e) == s.cons
    ensures e.Passes? ==> Movers(s, e) == Awake(s.procs, s.sleepers, e.clock)
  {
  }

  lemma SameActive(s: Sys, e: Event, s': Sys)
    requires Kept(s) && ActiveReady(s) && Did(s, e, s')
    requires e.Reaps? || e.ReapsLater? || e.Resumes? || e.Creates? || e.ReadsLine? || e.Refuses?
    ensures s'.active == s.active
  {
    hide Kept;
  }

  lemma TickRuns(s: Sys, s': Sys)
    requires Kept(s) && ActiveReady(s) && Did(s, Ticks, s')
    ensures 0 <= s.procs[s.active].priority < |s.rings| == |s'.rings| && RunsAs(s, Ticks, s')
  {
    ActiveRing(s);
    hide Kept, After;
    AfterInRing(s.rings[s.procs[s.active].priority], s.active);
    AfterIs(s.rings[s.procs[s.active].priority], s.active);
  }

  // ----- parents that wait -----

  /** A process waits for a child that is a zombie already. */
  predicate Overdue(ps: Procs, w: int, z: int) {
    && w in ps && z in ps && ps[z].parent == w && ps[z].state.Zombie?
    && ps[w].state.WaitChild? && (ps[w].state.pid < 0 || ps[w].state.pid == z)
  }

  ghost predicate NoneOverdue(ps: Procs) { forall w, z :: !Overdue(ps, w, z) }

  /** A kill switches away from the active process while its parent waits for it. */
  ghost predicate ForgetsParent(s: Sys, e: Event) {
    e.Kills? && s.active in Subtree(s, e.pid) && Waking(s.procs, s.active) != []
  }

  lemma BlocksRightly(s: Sys, pid: int, s': Sys, z: int)
    requires Steady(s) && ActiveReady(s) && Did(s, Blocks(WaitChild(pid)), s') && z in s.procs
    requires s.procs[z].parent == s.active && s.procs[z].state.Zombie?
    ensures pid >= 0 && z != pid
  {
    hide Homed, Queued, SleepSorted, FirstChild;
    var l := s.procs[s.active].children;
    var c := FirstChild(s.procs, l, pid);
    assert Branch(s.procs, s.depth, z) && Branch(s.procs, s.depth, s.active);
    assert NOBODY !in l && z in l;
    FirstChildIs(s.procs, l, pid);
    assert c in s.procs ==> Branch(s.procs, s.depth, c);
  }

  /** Who is overdue after an event was before, or is the parent that a kill forgets. */
  lemma OverdueBefore(s: Sys, e: Event, s': Sys, w: int, z: int)
    requires Steady(s) && ActiveReady(s) && Did(s, e, s') && Overdue(s'.procs, w, z)
    ensures Overdue(s.procs, w, z) || (ForgetsParent(s, e) && z == s.active)
  {
    hide Kept, NoneDying, Did, Vanished, Subtree, NextChildren;
    EventRecords(s, e, s', w);
    EventRecords(s, e, s', z);
    if e.Blocks? && w == s.active && e.state.WaitChild? && z in s.procs && s.procs[z].state.Zombie? {
      BlocksRightly(s, e.state.pid, s', z);
    }
    if e.Blocks? {
      BlocksAlive(s, e.state, s');
    }
  }

  lemma BlocksAlive(s: Sys, state: State, s': Sys)
    requires Kept(s) && ActiveReady(s) && Did(s, Blocks(state), s')
    ensures !state.Zombie?
  {
    hide Kept;
  }

  lemma ForgottenWaits(s: Sys, e: Event, s': Sys)
    requires Steady(s) && ActiveReady(s) && Did(s, e, s') && ForgetsParent(s, e)
    ensures Overdue(s'.procs, s.procs[s.active].parent, s.active)
  {
    hide Kept, NoneDying, Reached;
    var a, p := s.procs[s.active].parent, e.pid;
    KeptHomed(s);
    StepUp(s.procs, s.depth, s.active, p);
    assert a in Subtree(s, p);
    SelfBelow(s, s.active);
    StepUp(s.procs, s.depth, s.active, a);
    SelfBelow(s, a);
    ToldLists(s, p);
    EventRecords(s, e, s', a);
    EventRecords(s, e, s', s.active);
  }

  /** No process waits for a child that is a zombie already; every event keeps that, except a kill that switches away
      from the active process while the parent of that process waits for it. */
  lemma EventWaiting(s: Sys, e: Event, s': Sys)
    requires Steady(s) && ActiveReady(s) && Did(s, e, s') && NoneOverdue(s.procs)
    ensures NoneOverdue(s'.procs) <==> !ForgetsParent(s, e)
  {
    hide Steady, ActiveReady, Did, ForgetsParent, Overdue;
    if ForgetsParent(s, e) {
      ForgottenWaits(s, e, s');
    } else {
      forall w, z
        ensures !Overdue(s'.procs, w, z)
      {
        if Overdue(s'.procs, w, z) {
          OverdueBefore(s, e, s', w, z);
        }
      }
    }
  }
}
