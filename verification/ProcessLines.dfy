/** The wait lists of the queues over whole runs: they behave like the sorted queue. */
module ProcessLines {
  import opened Lists
  import opened Processes
  import opened ProcessTree
  import opened MessageQueues
  import opened ProcessState
  import opened ProcessSteps
  import opened ProcessLife
  import opened ProcessDeath
  import opened ProcessSwitch
  import opened ProcessQueues
  import opened ProcessSteady
  import opened ProcessKernel
  import opened ProcessHistory
  import opened ProcessEffects
  import opened ProcessFlows
  import opened WaitOrder

  // ----- lists of elements -----

  lemma LineSame(ps: Procs, ps': Procs, l: seq<int>)
    requires forall x :: x in l ==> x in ps && x in ps' && ps'[x].priority == ps[x].priority
    ensures Line(ps, l) == Line(ps', l)
  {
    forall i | 0 <= i < |l|
      ensures Line(ps, l)[i] == Line(ps', l)[i]
    {
      assert l[i] in l;
    }
  }

  lemma LineJoined(ps: Procs, a: seq<int>, b: seq<int>)
    ensures Line(ps, a + b) == Line(ps, a) + Line(ps, b)
  {
  }

  lemma LineDistinct(ps: Procs, l: seq<int>)
    requires NoDups(l)
    ensures Distinct(Line(ps, l))
  {
  }

  lemma {:induction false} NotFound(ps: Procs, l: seq<int>, p: int)
    ensures Find(Line(ps, l), p) < |l| <==> p in l
  {
    var w := Line(ps, l);
    if l != [] {
      assert w[1..] == Line(ps, l[1..]);
      NotFound(ps, l[1..], p);
      assert l == [l[0]] + l[1..];
    }
  }

  /** Taking one element out of the line. */
  lemma {:induction false} DroppedLine(ps: Procs, l: seq<int>, p: int)
    requires NoDups(l)
    ensures Dropped(Line(ps, l), p) == Line(ps, Without(l, {p}))
  {
    var w := Line(ps, l);
    DropStep(w, p);
    if l != [] {
      assert w[1..] == Line(ps, l[1..]);
      if l[0] == p {
        assert p !in l[1..];
        WithoutNone(l[1..], {p});
      } else {
        DroppedLine(ps, l[1..], p);
        LineJoined(ps, [l[0]], Without(l[1..], {p}));
        assert [w[0]] == Line(ps, [l[0]]);
      }
    }
  }

  /** Taking out one after the other those of some processes that are in a set. */
  function Drops(l: seq<int>, k: set<int>): seq<Op> {
    if l == [] then [] else (if l[0] in k then [Drop(l[0])] else []) + Drops(l[1..], k)
  }

  /** Those of a list that are in a set. */
  ghost function Within(l: seq<int>, k: set<int>): set<int> { set x | x in l && x in k }

  lemma {:induction false} DropsRun(ps: Procs, l: seq<int>, ds: seq<int>, k: set<int>)
    requires NoDups(l)
    ensures RunWait(Line(ps, l), Drops(ds, k)) == Delivery(Line(ps, Without(l, Within(ds, k))), [])
    decreases |ds|
  {
    hide Dropped, Find, LastHighest, Line, Without;
    if ds == [] {
      WithoutNone(l, Within(ds, k));
    } else {
      var d, rest := ds[0], ds[1..];
      assert ds == [d] + rest;
      if d in k {
        DroppedLine(ps, l, d);
        WithoutNoDups(l, {d});
        DropsRun(ps, Without(l, {d}), rest, k);
        WithoutTwice(l, {d}, Within(rest, k));
        assert {d} + Within(rest, k) == Within(ds, k);
        assert Drops(ds, k)[1..] == Drops(rest, k);
      } else {
        DropsRun(ps, l, rest, k);
        assert Within(rest, k) == Within(ds, k);
        assert Drops(ds, k) == Drops(rest, k);
      }
    }
  }

  lemma {:induction false} WithoutSame(l: seq<int>, k: set<int>, k': set<int>)
    requires forall x :: x in l ==> (x in k <==> x in k')
    ensures Without(l, k) == Without(l, k')
  {
    if l != [] {
      var first := l[0];
      assert first in l;
      WithoutSame(l[1..], k, k');
    }
  }

  // ----- one event -----

  /** The processes that wait at a queue, with their priorities, in the order of the list. */
  ghost function Waits(s: Sys, q: int): seq<Elem>
    requires q in s.queues
  {
    Line(s.procs, s.queues[q].waiters)
  }

  /** What an event does to the wait list of a queue, in the terms of the sorted queue. */
  ghost function LineOps(s: Sys, e: Event, q: int): seq<Op>
    requires q in s.queues
  {
    var l := s.queues[q].waiters;
    match e
    case Blocks(state) =>
      if state.WaitQueue? && state.queue == q && s.active in s.procs
      then [Add(Elem(s.active, s.procs[s.active].priority))] else []
    case Ranks(p, k) => [Rerank(p, k)]
    case Sends(i, _) => if i == q && s.queues[q].length == 0 then [Pop] else []
    case Receives(i, _) => if i == q && s.queues[q].length == s.queues[q].capacity then [Pop] else []
    case Resets(i) => if i == q then Drops(l, Members(l)) else []
    case Exits(_) => Drops(l, Struck(s, e))
    case Kills(_) => Drops(l, Struck(s, e))
    case _ => []
  }

  /** The processes that an event lets go on from a queue, because they are first in line. */
  ghost function LetGo(s: Sys, e: Event, q: int): seq<Elem>
    requires q in s.queues
  {
    if (e.Sends? || e.Receives?) && e.queue == q then Line(s.procs, Movers(s, e)) else []
  }

  /** What EventLists and EventRecords say about one wait list. */
  lemma WaitersAfter(s: Sys, e: Event, s': Sys, q: int)
    requires Steady(s) && ActiveReady(s) && Did(s, e, s') && q in s.queues && q in s'.queues
    ensures s'.queues[q].waiters == Front(Movers(s, e), s'.procs, InQueue(q))
        + Without(s.queues[q].waiters, Struck(s, e) + Members(Movers(s, e)))
    ensures NoDups(s.queues[q].waiters) && forall x :: x in s.queues[q].waiters <==>
        x in s.procs && s.procs[x].state.WaitQueue? && s.procs[x].state.queue == q
  {
    hide Kept, NoneDying, Did, Movers, Struck, Front;
    EventLists(s, e, s');
    assert ListAs(s, s', Movers(s, e), Struck(s, e), InQueue(q));
    KeptHomed(s);
    Waiting(s, InQueue(q));
    forall x
      ensures x in s.queues[q].waiters <==>
          x in s.procs && s.procs[x].state.WaitQueue? && s.procs[x].state.queue == q
    {
      InTheirList(s, InQueue(q), x);
    }
  }

  /** A list of the survivors has the same priorities afterwards. */
  lemma RanksAfter(s: Sys, e: Event, s': Sys, l: seq<int>)
    requires Steady(s) && ActiveReady(s) && Did(s, e, s') && !e.Ranks?
    requires forall x :: x in l ==> x in s.procs && x !in Vanished(s, e)
    ensures Line(s'.procs, l) == Line(s.procs, l)
  {
    hide Kept, NoneDying, Did, NextState, NextChildren, Vanished;
    forall x | x in l
      ensures x in s'.procs && s'.procs[x].priority == s.procs[x].priority
    {
      EventRecords(s, e, s', x);
    }
    LineSame(s.procs, s'.procs, l);
  }

  lemma BlockWaits(s: Sys, state: State, s': Sys, q: int)
    requires Steady(s) && ActiveReady(s) && Did(s, Blocks(state), s') && q in s.queues && q in s'.queues
    ensures RunWait(Waits(s, q), LineOps(s, Blocks(state), q)) == Delivery(Waits(s', q), [])
  {
    hide Kept, NoneDying, Did, Dropped, Find, NextChildren;
    var e, l, a := Blocks(state), s.queues[q].waiters, s.active;
    WaitersAfter(s, e, s', q);
    NoVictim(s, e);
    EventRecords(s, e, s', a);
    DidKnown(s, e, s');
    FrontOfOne(a, s'.procs, InQueue(q));
    assert a !in l;
    WithoutNone(l, Struck(s, e) + Members([a]));
    RanksAfter(s, e, s', l);
    RanksAfter(s, e, s', [a]);
    NotFound(s.procs, l, a);
    LineJoined(s'.procs, [a], l);
    assert Line(s.procs, [a]) == [Elem(a, s.procs[a].priority)];
    assert s'.queues[q].waiters == if state.WaitQueue? && state.queue == q then [a] + l else l;
  }

  lemma RankWaits(s: Sys, p: int, k: int, s': Sys, q: int)
    requires Steady(s) && ActiveReady(s) && Did(s, Ranks(p, k), s') && q in s.queues && q in s'.queues
    ensures RunWait(Waits(s, q), LineOps(s, Ranks(p, k), q)) == Delivery(Waits(s', q), [])
  {
    hide Kept, NoneDying, Did, Dropped, Find, RunWait, RecordAs, Remove, Without;
    var e, l := Ranks(p, k), s.queues[q].waiters;
    RerankOnce(Waits(s, q), p, k);
    RankMoves(s, p, k, s', InQueue(q));
    WaitersAfter(s, e, s', q);
    NotFound(s.procs, l, p);
    RankOthers(s, p, k, s', l);
    if p in l {
      DroppedLine(s.procs, l, p);
      WithoutOne(l, p);
      RemoveMembers(l, p);
      var rest := Remove(l, p);
      LineSame(s.procs, s'.procs, rest);
      LineJoined(s'.procs, [p], rest);
    } else {
      LineSame(s.procs, s'.procs, l);
    }
  }

  lemma RankOthers(s: Sys, p: int, k: int, s': Sys, l: seq<int>)
    requires Steady(s) && ActiveReady(s) && Did(s, Ranks(p, k), s') && forall x :: x in l ==> x in s.procs
    ensures forall x :: x in l && x != p ==> x in s'.procs && s'.procs[x].priority == s.procs[x].priority
    ensures Line(s'.procs, [p]) == [Elem(p, k)]
  {
    hide Kept, NoneDying, Did, NextChildren, NextState;
    NoVictim(s, Ranks(p, k));
    RankMovers(s, p, k, s');
    forall x | x in l && x != p
      ensures x in s'.procs && s'.procs[x].priority == s.procs[x].priority
    {
      EventRecords(s, Ranks(p, k), s', x);
    }
  }

  lemma RerankOnce(w: seq<Elem>, id: int, p: int)
    ensures RunWait(w, [Rerank(id, p)]) ==
        Delivery(if Find(w, id) < |w| then [Elem(id, p)] + Dropped(w, id) else w, [])
  {
    hide Find, Dropped;
    assert [Rerank(id, p)][1..] == [];
  }

  lemma PopWaits(s: Sys, e: Event, s': Sys, q: int)
    requires Steady(s) && ActiveReady(s) && Did(s, e, s') && q in s.queues && q in s'.queues
    requires e.Sends? || e.Receives?
    ensures RunWait(Waits(s, q), LineOps(s, e, q)) == Delivery(Waits(s', q), LetGo(s, e, q))
  {
    hide Kept, NoneDying, Did, Movers, RunWait, LineOps, Struck, Front, Without, Vanished, Victim;
    var l, m := s.queues[q].waiters, Movers(s, e);
    WaitersAfter(s, e, s', q);
    NoVictim(s, e);
    MoversWait(s, e, s');
    PoppedGoes(s, e, s', q);
    if e.queue == q && m != [] {
      FirstOut(s, e, q);
      WithoutIn(l, Members(m));
      RanksAfter(s, e, s', Without(l, Members(m)));
    } else {
      forall x | x in l
        ensures x !in Members(m)
      {
      }
      WithoutNone(l, Members(m));
      RanksAfter(s, e, s', l);
      NobodyPops(s, e, q);
    }
  }

  lemma WithoutIn(l: seq<int>, k: set<int>)
    ensures forall x :: x in Without(l, k) ==> x in l
  {
  }

  /** The one that is let go is ready, and in no queue. */
  lemma PoppedGoes(s: Sys, e: Event, s': Sys, q: int)
    requires Steady(s) && ActiveReady(s) && Did(s, e, s') && (e.Sends? || e.Receives?)
    ensures Front(Movers(s, e), s'.procs, InQueue(q)) == []
    ensures Struck(s, e) + Members(Movers(s, e)) == Members(Movers(s, e))
  {
    hide Kept, NoneDying, Did, NextChildren, Movers;
    var m := Movers(s, e);
    NoVictim(s, e);
    MoversWait(s, e, s');
    if m != [] {
      assert m[0] in m && m == [m[0]];
      EventRecords(s, e, s', m[0]);
      FrontOfOne(m[0], s'.procs, InQueue(q));
    }
  }

  lemma FirstOut(s: Sys, e: Event, q: int)
    requires q in s.queues && NoDups(s.queues[q].waiters) && (e.Sends? || e.Receives?) && e.queue == q
    requires Movers(s, e) != []
    ensures RunWait(Waits(s, q), LineOps(s, e, q)) ==
        Delivery(Line(s.procs, Without(s.queues[q].waiters, Members(Movers(s, e)))), Line(s.procs, Movers(s, e)))
  {
    hide LastHighest, RunWait;
    var l := s.queues[q].waiters;
    var w := Line(s.procs, l);
    var k := LastHighest(w);
    assert Movers(s, e) == [l[k]] && Members(Movers(s, e)) == {l[k]} && LineOps(s, e, q) == [Pop];
    CutIsWithout(s.procs, l, k);
    PopOnce(w);
    assert Line(s.procs, [l[k]]) == [w[k]];
  }

  lemma CutIsWithout(ps: Procs, l: seq<int>, k: nat)
    requires NoDups(l) && k < |l|
    ensures Cut(Line(ps, l), k) == Line(ps, Without(l, {l[k]}))
  {
    WithoutOne(l, l[k]);
    RemoveAt(l, k);
    hide NoDups, Without, Remove;
    LineParts(ps, l, k);
    hide Line;
    LineJoined(ps, l[..k], l[k + 1..]);
  }

  lemma LineParts(ps: Procs, l: seq<int>, k: nat)
    requires k < |l|
    ensures Line(ps, l)[..k] == Line(ps, l[..k]) && Line(ps, l)[k + 1..] == Line(ps, l[k + 1..])
  {
  }

  lemma RemoveAt(l: seq<int>, k: nat)
    requires NoDups(l) && k < |l|
    ensures Remove(l, l[k]) == l[..k] + l[k + 1..]
  {
    var j := RemoveCutsOnePosition(l, l[k]);
    assert j == k;
  }

  lemma PopOnce(w: seq<Elem>)
    requires w != []
    ensures RunWait(w, [Pop]) == Delivery(Cut(w, LastHighest(w)), [w[LastHighest(w)]])
  {
    hide LastHighest;
    assert [Pop][1..] == [];
  }

  lemma NobodyPops(s: Sys, e: Event, q: int)
    requires q in s.queues && (e.Sends? || e.Receives?) && (e.queue != q || Movers(s, e) == [])
    ensures RunWait(Waits(s, q), LineOps(s, e, q)) == Delivery(Waits(s, q), [])
  {
    hide LastHighest;
    assert [Pop][1..] == [];
    assert e.queue == q && LineOps(s, e, q) == [Pop] ==> s.queues[q].waiters == [];
  }

  lemma DropWaits(s: Sys, e: Event, s': Sys, q: int)
    requires Steady(s) && ActiveReady(s) && Did(s, e, s') && q in s.queues && q in s'.queues && (e.Exits? || e.Kills?)
    ensures RunWait(Waits(s, q), LineOps(s, e, q)) == Delivery(Waits(s', q), [])
  {
    hide Kept, NoneDying, Did, NextChildren, Struck, Vanished;
    var l := s.queues[q].waiters;
    WaitersAfter(s, e, s', q);
    WakingWaits(s, e);
    FrontOfDeath(s, e, s', q);
    DropsRun(s.procs, l, l, Struck(s, e));
    WithoutSame(l, Within(l, Struck(s, e)), Struck(s, e) + Members(Movers(s, e)));
    var rest := s'.queues[q].waiters;
    VanishedStruck(s, e);
    RanksAfter(s, e, s', rest);
  }

  /** The parent that is told is not put into a queue. */
  lemma FrontOfDeath(s: Sys, e: Event, s': Sys, q: int)
    requires Steady(s) && ActiveReady(s) && Did(s, e, s') && (e.Exits? || e.Kills?)
    ensures Front(Movers(s, e), s'.procs, InQueue(q)) == []
  {
    hide Kept, NoneDying, Did, NextChildren, Vanished, Subtree;
    var m := Movers(s, e);
    FrontMembers(m, s'.procs, InQueue(q));
    forall x | x in m && x in s'.procs
      ensures HomeOf(s'.procs[x]) != InQueue(q)
    {
      EventRecords(s, e, s', x);
    }
    NoMembers(Front(m, s'.procs, InQueue(q)));
  }

  lemma VanishedStruck(s: Sys, e: Event)
    requires e.Exits? || e.Kills?
    ensures Vanished(s, e) <= Struck(s, e)
  {
  }

  lemma ResetWaits(s: Sys, s': Sys, q: int, i: int)
    requires Steady(s) && ActiveReady(s) && Did(s, Resets(i), s') && q in s.queues && q in s'.queues
    ensures RunWait(Waits(s, q), LineOps(s, Resets(i), q)) == Delivery(Waits(s', q), [])
  {
    hide Kept, NoneDying, Did, Front, Without, RunWait, Vanished, RecordAs, NextState;
    var e, l := Resets(i), s.queues[q].waiters;
    ResetKnownQueue(s, i, s');
    WaitersAfter(s, e, s', q);
    KeptHomed(s);
    Waiting(s, InQueue(i));
    NoVictim(s, e);
    ResetFront(s, e, s', q);
    EmptyRun(Waits(s, q));
    if i == q {
      DropsRun(s.procs, l, l, Members(l));
      WithoutSame(l, Within(l, Members(l)), Struck(s, e) + Members(l));
      NoneOf(l, Struck(s, e) + Members(l));
    } else {
      WithoutNone(l, Struck(s, e) + Members(s.queues[i].waiters));
      RanksAfter(s, e, s', l);
    }
  }

  lemma ResetKnownQueue(s: Sys, i: int, s': Sys)
    requires Kept(s) && ActiveReady(s) && Did(s, Resets(i), s')
    ensures i in s.queues
  {
    hide Kept, WasResetTo;
  }

  lemma ResetFront(s: Sys, e: Event, s': Sys, q: int)
    requires Steady(s) && ActiveReady(s) && Did(s, e, s') && e.Resets? && e.queue in s.queues
    ensures Front(Movers(s, e), s'.procs, InQueue(q)) == []
  {
    hide Kept, NoneDying, Did;
    KeptHomed(s);
    Waiting(s, InQueue(e.queue));
    OutOfQueue(s, e, s', q);
  }

  lemma NoneOf(l: seq<int>, k: set<int>)
    requires forall x :: x in l ==> x in k
    ensures Without(l, k) == []
  {
    NoMembers(Without(l, k));
  }

  lemma OutOfQueue(s: Sys, e: Event, s': Sys, q: int)
    requires Steady(s) && ActiveReady(s) && Did(s, e, s') && (e.Resets? || e.Deletes? || e.Flushes? || e.Passes?)
    requires forall x :: x in Movers(s, e) ==> NextStateReady(s, e, x)
    ensures Front(Movers(s, e), s'.procs, InQueue(q)) == []
  {
    hide Kept, NoneDying, Did, NextChildren, Movers;
    var m := Movers(s, e);
    FrontMembers(m, s'.procs, InQueue(q));
    NoVictim(s, e);
    forall x | x in m && x in s'.procs
      ensures HomeOf(s'.procs[x]) != InQueue(q)
    {
      assert NextStateReady(s, e, x);
      EventRecords(s, e, s', x);
    }
    NoMembers(Front(m, s'.procs, InQueue(q)));
  }

  ghost predicate NextStateReady(s: Sys, e: Event, x: int) { x in s.procs && NextState(s, e, x).Sched? }

  /** Who waits at a queue after an event, in which order, and who is let go: what the operations of the sorted queue
      say. A process that blocks is added, one that is first in line is taken, one whose priority changes is taken out
      and added again, and those that die are taken out. */
  lemma EventWaits(s: Sys, e: Event, s': Sys, q: int)
    requires Steady(s) && ActiveReady(s) && Did(s, e, s') && q in s.queues && q in s'.queues
    ensures RunWait(Waits(s, q), LineOps(s, e, q)) == Delivery(Waits(s', q), LetGo(s, e, q))
  {
    hide Kept, NoneDying, Did, ActiveReady, RunWait, LineOps, LetGo;
    match e
    case Blocks(state) => BlockWaits(s, state, s', q); NobodyGoes(s, e, q);
    case Ranks(p, k) => RankWaits(s, p, k, s', q); NobodyGoes(s, e, q);
    case Sends(_, _) => PopWaits(s, e, s', q);
    case Receives(_, _) => PopWaits(s, e, s', q);
    case Resets(i) => ResetWaits(s, s', q, i); NobodyGoes(s, e, q);
    case Exits(_) => DropWaits(s, e, s', q); NobodyGoes(s, e, q);
    case Kills(_) => DropWaits(s, e, s', q); NobodyGoes(s, e, q);
    case _ => OtherWaits(s, e, s', q); NobodyGoes(s, e, q);
  }

  lemma NobodyGoes(s: Sys, e: Event, q: int)
    requires q in s.queues && !e.Sends? && !e.Receives?
    ensures LetGo(s, e, q) == []
  {
  }

  lemma OtherWaits(s: Sys, e: Event, s': Sys, q: int)
    requires Steady(s) && ActiveReady(s) && Did(s, e, s') && q in s.queues && q in s'.queues
    requires !(e.Blocks? || e.Ranks? || e.Sends? || e.Receives? || e.Resets? || e.Exits? || e.Kills?)
    ensures RunWait(Waits(s, q), LineOps(s, e, q)) == Delivery(Waits(s', q), [])
  {
    hide Kept, NoneDying, Did, NextChildren, Movers;
    var l, m := s.queues[q].waiters, Movers(s, e);
    WaitersAfter(s, e, s', q);
    NoVictim(s, e);
    OthersStay(s, e, s', q);
    forall x | x in l
      ensures x !in Struck(s, e) + Members(m)
    {
    }
    WithoutNone(l, Struck(s, e) + Members(m));
    DidKnown(s, e, s');
    RanksAfter(s, e, s', l);
  }

  /** In the other events nobody enters or leaves the wait list. */
  lemma OthersStay(s: Sys, e: Event, s': Sys, q: int)
    requires Steady(s) && ActiveReady(s) && Did(s, e, s') && q in s.queues && q in s'.queues
    requires !(e.Blocks? || e.Ranks? || e.Sends? || e.Receives? || e.Resets? || e.Exits? || e.Kills?)
    ensures Front(Movers(s, e), s'.procs, InQueue(q)) == []
    ensures forall x :: x in s.queues[q].waiters ==> x !in Struck(s, e) + Members(Movers(s, e)) && x !in Vanished(s, e)
  {
    hide Kept, NoneDying, Did, NextChildren;
    DidKnown(s, e, s');
    NoVictim(s, e);
    MoversElsewhere(s, e, s', q);
    if e.Reaps? || e.ReapsLater? {
      ReapedOnly(s, e);
    }
    WaitersAfter(s, e, s', q);
    hide Movers, Vanished;
    var m := Movers(s, e);
    FrontMembers(m, s'.procs, InQueue(q));
    forall x | x in m && x in s'.procs
      ensures HomeOf(s'.procs[x]) != InQueue(q)
    {
      EventRecords(s, e, s', x);
    }
    NoMembers(Front(m, s'.procs, InQueue(q)));
  }

  lemma MoversElsewhere(s: Sys, e: Event, s': Sys, q: int)
    requires Steady(s) && ActiveReady(s) && Did(s, e, s') && q in s.queues && q in s'.queues
    requires !(e.Blocks? || e.Ranks? || e.Sends? || e.Receives? || e.Resets? || e.Exits? || e.Kills?)
    ensures forall x :: x in Movers(s, e) ==> x !in s.queues[q].waiters && (x in s.procs ==>
        var st := NextState(s, e, x); !(st.WaitQueue? && st.queue == q))
    ensures Struck(s, e) == {}
  {
    hide Kept, NoneDying, Did, Front, Without;
    KeptHomed(s);
    forall x | x in s.queues[q].waiters
      ensures x in s.procs && s.procs[x].state.WaitQueue? && s.procs[x].state.queue == q
    {
      InTheirList(s, InQueue(q), x);
    }
    if e.Deletes? {
      DeletesOther(s, e, s', q);
      Waiting(s, InQueue(e.queue));
    } else if e.Flushes? {
      Waiting(s, OnConsole);
    } else if e.Passes? {
      AwakeSleep(s.procs, s.sleepers, e.clock);
    } else if e.Starts? {
      StartsNew(s, e, s');
    }
  }

  lemma DeletesOther(s: Sys, e: Event, s': Sys, q: int)
    requires Steady(s) && ActiveReady(s) && Did(s, e, s') && q in s.queues && q in s'.queues && e.Deletes?
    ensures e.queue != q && e.queue in s.queues
  {
    EventBuffers(s, e, s', q);
    hide Kept, NoneDying, BufferAs;
  }

  lemma StartsNew(s: Sys, e: Event, s': Sys)
    requires Kept(s) && ActiveReady(s) && Did(s, e, s') && e.Starts?
    ensures e.pid !in s.procs
  {
    hide Kept;
  }

  lemma {:induction false} AwakeSleep(ps: Procs, l: seq<int>, clock: int)
    ensures forall x :: x in Awake(ps, l, clock) <==>
        x in l && x in ps && ps[x].state.WaitTime? && ps[x].state.clock <= clock
  {
    if l != [] {
      AwakeSleep(ps, l[1..], clock);
      assert l == [l[0]] + l[1..];
    }
  }

  /** A waiting process whose priority changes is in front of its wait list afterwards, a ready one in front of the
      ring of its new priority; the others keep their places, and so do all in the other lists. */
  lemma RankMoves(s: Sys, p: int, k: int, s': Sys, h: Home)
    requires Steady(s) && ActiveReady(s) && Did(s, Ranks(p, k), s') && HasList(s, h) && HasList(s', h)
    ensures p in s.procs
    ensures List(s', h) ==
        if s.procs[p].state.WaitQueue? && h == InQueue(s.procs[p].state.queue) then [p] + Remove(List(s, h), p)
        else if s.procs[p].state.Sched? && h == Ring(k) then [p] + List(s, h)
        else if s.procs[p].state.Sched? && h == Ring(s.procs[p].priority) then Remove(List(s, h), p)
        else List(s, h)
  {
    hide Kept, NoneDying, Did, Movers, Struck;
    var e := Ranks(p, k);
    RankChanges(s, p, k, s');
    RankMovers(s, p, k, s');
    ListAfter(s, e, s', h);
    KeptHomed(s);
    InTheirList(s, h, p);
    if s.procs[p].state.Sched? || s.procs[p].state.WaitQueue? {
      FrontOfOne(p, s'.procs, h);
      LostOne(s, p, h);
    } else {
      WithoutNone(List(s, h), {} + Members([]));
    }
  }

  lemma RankMovers(s: Sys, p: int, k: int, s': Sys)
    requires Steady(s) && ActiveReady(s) && Did(s, Ranks(p, k), s')
    ensures p in s.procs && p in s'.procs && s'.procs[p].state == s.procs[p].state && s'.procs[p].priority == k
    ensures Struck(s, Ranks(p, k)) == {}
    ensures Movers(s, Ranks(p, k)) == if s.procs[p].state.Sched? || s.procs[p].state.WaitQueue? then [p] else []
  {
    hide Kept, NoneDying, Did, NextChildren;
    DidKnown(s, Ranks(p, k), s');
    NoVictim(s, Ranks(p, k));
    EventRecords(s, Ranks(p, k), s', p);
  }

  lemma ListAfter(s: Sys, e: Event, s': Sys, h: Home)
    requires Kept(s) && ActiveReady(s) && Did(s, e, s') && HasList(s, h) && HasList(s', h)
    ensures List(s', h) == Front(Movers(s, e), s'.procs, h) + Without(List(s, h), Struck(s, e) + Members(Movers(s, e)))
  {
    hide Kept, Did, ActiveReady, Movers, Struck;
    EventLists(s, e, s');
    assert ListAs(s, s', Movers(s, e), Struck(s, e), h);
  }

  lemma RankChanges(s: Sys, p: int, k: int, s': Sys)
    requires Kept(s) && ActiveReady(s) && Did(s, Ranks(p, k), s')
    ensures p in s.procs && k != s.procs[p].priority
  {
    hide Kept;
  }

  // ----- whole runs -----

  ghost function AllOps(states: seq<Sys>, events: seq<Event>, q: int, i: nat): seq<Op>
    requires i <= |events| <= |states| && forall j :: 0 <= j < i ==> q in states[j].queues
  {
    if i == 0 then [] else AllOps(states, events, q, i - 1) + LineOps(states[i - 1], events[i - 1], q)
  }

  ghost function AllLetGo(states: seq<Sys>, events: seq<Event>, q: int, i: nat): seq<Elem>
    requires i <= |events| <= |states| && forall j :: 0 <= j < i ==> q in states[j].queues
  {
    if i == 0 then [] else AllLetGo(states, events, q, i - 1) + LetGo(states[i - 1], events[i - 1], q)
  }

  lemma {:induction false} RunWaitJoined(w: seq<Elem>, a: seq<Op>, b: seq<Op>)
    ensures var d, d' := RunWait(w, a), RunWait(RunWait(w, a).rest, b);
            RunWait(w, a + b) == Delivery(d'.rest, d.out + d'.out)
    decreases |a|
  {
    hide LastHighest, Dropped, Find;
    if a == [] {
      assert a + b == b;
    } else {
      assert (a + b)[1..] == a[1..] + b;
      match a[0] {
        case Add(e) => RunWaitJoined(if Find(w, e.id) < |w| then w else [e] + w, a[1..], b);
        case Pop => RunWaitJoined(if w == [] then w else Cut(w, LastHighest(w)), a[1..], b);
        case Drop(id) => RunWaitJoined(Dropped(w, id), a[1..], b);
        case Rerank(id, p) =>
          RunWaitJoined(if Find(w, id) < |w| then [Elem(id, p)] + Dropped(w, id) else w, a[1..], b);
      }
    }
  }

  /** Over every run, as long as a queue is there, the processes that wait at it and those that were let go, in order,
      are those that the same operations leave and deliver on a sorted queue. */
  lemma {:induction false} RunLines(states: seq<Sys>, events: seq<Event>, q: int, i: nat)
    requires IsRun(states, events) && i <= |events| < |states| && forall j :: 0 <= j <= i ==> q in states[j].queues
    ensures var ops, w := AllOps(states, events, q, i), Waits(states[0], q);
            && RunWait(w, ops) == Delivery(Waits(states[i], q), AllLetGo(states, events, q, i))
            && RunQueue(Sorted(w), ops) == Delivery(Sorted(Waits(states[i], q)), AllLetGo(states, events, q, i))
  {
    RunKept(states, events, 0);
    RunLine(states, events, q, i);
    WaitsDistinct(states[0], q);
    hide Waits, AllOps, AllLetGo;
    SameRuns(Waits(states[0], q), AllOps(states, events, q, i));
  }

  lemma WaitsDistinct(s: Sys, q: int)
    requires Steady(s) && q in s.queues
    ensures Distinct(Waits(s, q))
  {
    Waiting(s, InQueue(q));
    LineDistinct(s.procs, s.queues[q].waiters);
  }

  lemma {:induction false} RunLine(states: seq<Sys>, events: seq<Event>, q: int, i: nat)
    requires IsRun(states, events) && i <= |events| < |states| && forall j :: 0 <= j <= i ==> q in states[j].queues
    ensures RunWait(Waits(states[0], q), AllOps(states, events, q, i)) ==
        Delivery(Waits(states[i], q), AllLetGo(states, events, q, i))
  {
    hide IsRun, Waits, LineOps, LetGo, Steady, ActiveReady, Did, RunWait;
    EmptyRun(Waits(states[0], q));
    if i > 0 {
      RunLine(states, events, q, i - 1);
      NextLine(states, events, q, i - 1);
      RunWaitJoined(Waits(states[0], q), AllOps(states, events, q, i - 1), LineOps(states[i - 1], events[i - 1], q));
    }
  }

  lemma EmptyRun(w: seq<Elem>)
    ensures RunWait(w, []) == Delivery(w, [])
  {
  }

  lemma NextLine(states: seq<Sys>, events: seq<Event>, q: int, i: nat)
    requires IsRun(states, events) && i < |events| < |states| && q in states[i].queues && q in states[i + 1].queues
    ensures RunWait(Waits(states[i], q), LineOps(states[i], events[i], q)) ==
        Delivery(Waits(states[i + 1], q), LetGo(states[i], events[i], q))
  {
    ActiveThere(states, events, i);
    hide *;
    EventWaits(states[i], events[i], states[i + 1], q);
  }
}
