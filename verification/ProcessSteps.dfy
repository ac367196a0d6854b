/** What the steps of the process kernel do to the system as a whole, and that each keeps its invariant. */
module ProcessSteps {
  import opened Lists
  import opened Processes
  import opened ProcessTree
  import opened MessageQueues
  import opened ProcessState

  // ----- who runs next -----

  /** After the active process has left its ring, the chosen successor is ready and none is ready above it. */
  lemma SuccessorReady(s: Sys, next: int)
    requires Homed(s) && IDLE in s.procs && s.procs[IDLE].state.Sched? && NOBODY !in s.procs
    requires s.active in s.procs && !s.procs[s.active].state.Sched?
    requires var k := s.procs[s.active].priority;
             if next == NOBODY then NoneAbove(s.rings, k - 1)
             else next in s.procs && s.procs[next].state.Sched? && NoneAbove(s.rings, s.procs[next].priority)
    ensures Successor(s, next) != NOBODY && Ready(s.(active := Successor(s, next)))
  {
    if next == NOBODY {
      assert HasHome(s, s.active);
      HighestIsTop(s, s.procs[s.active].priority);
      InItsRing(s, IDLE);
    }
  }

  /** The search for a ready process below the active priority fails only when idle is not below it either. */
  lemma SearchFails(s: Sys, k: nat)
    requires Homed(s) && k <= |s.rings| && NOBODY !in s.procs
    ensures HighestBelow(s.rings, k) == NOBODY <==> forall p :: p in s.procs && s.procs[p].state.Sched? ==>
        s.procs[p].priority >= k
  {
    RingsBelow(s, k);
    forall p | p in s.procs && s.procs[p].state.Sched? && s.procs[p].priority < k
      ensures HighestBelow(s.rings, k) != NOBODY
    {
      InItsRing(s, p);
    }
  }

  lemma {:induction false} RingsBelow(s: Sys, k: nat)
    requires Homed(s) && k <= |s.rings| && NOBODY !in s.procs
    ensures var p := HighestBelow(s.rings, k);
            if p == NOBODY then forall j :: 0 <= j < k ==> s.rings[j] == []
            else p in s.procs && s.procs[p].state.Sched? && s.procs[p].priority < k
  {
    if k > 0 {
      assert Houses(s, Ring(k - 1));
      if s.rings[k - 1] != [] {
        assert s.rings[k - 1][0] in s.rings[k - 1];
      } else {
        RingsBelow(s, k - 1);
      }
    }
  }

  /** The rings after a move: only those of the old and the new home differ. */
  lemma MoveRings(s: Sys, p: int, pc: Proc, k: int)
    requires Homed(s) && p in s.procs && HasHome(s, p) && CanEnter(s, pc) && NoneAbove(s.rings, k)
    ensures NoneAbove(Move(s, p, pc).rings, if pc.state.Sched? && pc.priority > k then pc.priority else k)
  {
    var s' := Move(s, p, pc);
    MoveLists(s, p, pc, Nowhere);
    forall j | 0 <= j < |s'.rings| && k < j && (pc.state.Sched? ==> pc.priority < j)
      ensures s'.rings[j] == []
    {
      MoveLists(s, p, pc, Ring(j));
      assert s.rings[j] == [];
    }
  }

  ghost predicate CanBlock(s: Sys, pc: Proc) {
    Homed(s) && s.active in s.procs && s.procs[s.active].state.Sched? && CanEnter(s, pc) && !pc.state.Sched?
  }

  /** The system after the active process has blocked with a new record. */
  ghost function Block(s: Sys, pc: Proc): Sys
    requires CanBlock(s, pc)
  {
    InItsRing(s, s.active);
    assert HasHome(s, s.active);
    MoveHomed(s, s.active, pc);
    MoveLists(s, s.active, pc, Nowhere);
    var s1 := Move(s, s.active, pc);
    s1.(active := Successor(s1.(active := s.active), NextOf(s.rings[s.procs[s.active].priority], s.active)))
  }

  lemma MoveActive(s: Sys, p: int, pc: Proc)
    requires p in s.procs && HasHome(s, p) && CanEnter(s, pc)
    ensures Move(s, p, pc).active == s.active && Move(s, p, pc).procs == s.procs[p := pc]
  {
    MoveFields(s, p, pc);
  }

  /** Blocking the active process leaves a system whose active process is the most urgent ready one. */
  lemma BlockSound(s: Sys, pc: Proc)
    requires Sound(s) && s.active != IDLE && Fits(s, s.procs[s.active], pc)
    requires pc.priority == s.procs[s.active].priority && !pc.state.Sched? && !pc.state.Dying?
    ensures Sound(Block(s, pc)) && Block(s, pc).active != NOBODY
  {
    hide Move, Tree, Queued, SleepSorted, Homed;
    InItsRing(s, s.active);
    MoveKept(s, s.active, pc);
    MoveActive(s, s.active, pc);
    var a, k := s.active, s.procs[s.active].priority;
    var s1 := Move(s, a, pc);
    var next := NextOf(s.rings[k], a);
    AfterInRing(s.rings[k], a);
    MoveRings(s, a, pc, k);
    MoveLists(s, a, pc, Ring(k));
    NoneAtTop(s1.rings, k);
    NobodyIsNone(s);
    SuccessorReady(s1, next);
    ActiveOnly(s1, Successor(s1, next));
  }

  lemma NobodyIsNone(s: Sys)
    requires Tree(s.procs, s.depth)
    ensures NOBODY !in s.procs
  {
  }

  lemma NoneAtTop(rings: seq<seq<int>>, k: nat)
    requires k < |rings| && NoneAbove(rings, k)
    ensures rings[k] == [] ==> NoneAbove(rings, k - 1)
  {
  }

  /** Homes are decided by the records and the lists alone. */
  lemma SameHomes(s: Sys, s': Sys)
    requires Homed(s) && s'.procs == s.procs && s'.rings == s.rings && s'.cons == s.cons && s'.sleepers == s.sleepers
    requires s'.queues.Keys == s.queues.Keys
    requires forall q :: q in s.queues ==> s'.queues[q].waiters == s.queues[q].waiters
    ensures Homed(s')
  {
    forall p | p in s'.procs
      ensures HasHome(s', p)
    {
      assert HasHome(s, p);
    }
    forall h | HasList(s', h)
      ensures Houses(s', h)
    {
      assert HasList(s, h) && List(s', h) == List(s, h);
      assert Houses(s, h);
    }
  }

  /** Which process is active matters to readiness only. */
  lemma ActiveOnly(s: Sys, a: int)
    requires Kept(s)
    ensures Kept(s.(active := a))
  {
    hide Homed;
    var s' := s.(active := a);
    SameHomes(s, s');
    forall q | q in s'.queues
      ensures QueueSound(s', q)
    {
      assert QueueSound(s, q);
      QueueSoundSame(s, s', q);
    }
  }

  lemma QueueSoundSame(s: Sys, s': Sys, q: int)
    requires q in s.queues && q in s'.queues && s'.queues[q] == s.queues[q] && s'.procs == s.procs && Queued(s)
    requires q in s.sent && q in s.got && q in s'.sent && q in s'.got && s'.sent[q] == s.sent[q]
    requires s'.got[q] == s.got[q]
    ensures QueueSound(s', q)
  {
    assert QueueSound(s, q);
    forall p | p in s'.queues[q].waiters
      ensures WaitsRightly(s', q, p)
    {
      assert WaitsRightly(s, q, p);
    }
  }

  // ----- waking -----

  ghost function Woken(pc: Proc, r: Resume): Proc { pc.(state := Sched(r)) }

  ghost function Wake(s: Sys, p: int, r: Resume): Sys {
    if p in s.procs && HasHome(s, p) && CanEnter(s, Woken(s.procs[p], r)) then Move(s, p, Woken(s.procs[p], r)) else s
  }

  /** Processes woken one after the other. */
  ghost function WakeEach(s: Sys, l: seq<int>, r: Resume): Sys
    decreases |l|
  {
    if l == [] then s else WakeEach(Wake(s, l[0], r), l[1..], r)
  }

  /** Only the states of some processes changed, and all of them are ready now. */
  ghost predicate OnlyWoken(s: Sys, s': Sys, l: seq<int>, r: Resume) {
    && SameButLists(s.(procs := s'.procs), s') && s'.procs.Keys == s.procs.Keys
    && (forall p :: p in s.procs && p !in l ==> s'.procs[p] == s.procs[p])
    && (forall p :: p in s.procs && p in l ==> s'.procs[p] == Woken(s.procs[p], r))
  }

  lemma WakeKept(s: Sys, p: int, r: Resume, k: int)
    requires Kept(s) && p in s.procs && !r.ReapChild? && NoneAbove(s.rings, k)
    ensures Kept(Wake(s, p, r)) && OnlyWoken(s, Wake(s, p, r), [p], r)
    ensures NoneAbove(Wake(s, p, r).rings, if s.procs[p].priority > k then s.procs[p].priority else k)
    ensures HasHome(s, p) && CanEnter(s, Woken(s.procs[p], r)) && Wake(s, p, r) == Move(s, p, Woken(s.procs[p], r))
  {
    hide Move, Tree, Queued, SleepSorted;
    assert HasHome(s, p);
    MoveKept(s, p, Woken(s.procs[p], r));
    MoveFields(s, p, Woken(s.procs[p], r));
    MoveRings(s, p, Woken(s.procs[p], r), k);
  }

  lemma OnlyWokenMore(s: Sys, s1: Sys, s2: Sys, p: int, l: seq<int>, r: Resume)
    requires OnlyWoken(s, s1, [p], r) && OnlyWoken(s1, s2, l, r) && p !in l
    ensures OnlyWoken(s, s2, [p] + l, r)
  {
    forall q | q in s.queues
      ensures s2.queues[q] == s.queues[q].(waiters := s2.queues[q].waiters)
    {
      assert s1.queues[q] == s.queues[q].(waiters := s1.queues[q].waiters);
    }
  }

  lemma {:induction false} WakeEachKept(s: Sys, l: seq<int>, r: Resume, k: int)
    requires Kept(s) && !r.ReapChild? && NoDups(l) && NoneAbove(s.rings, k)
    requires forall p :: p in l ==> p in s.procs && s.procs[p].priority <= k
    ensures Kept(WakeEach(s, l, r)) && OnlyWoken(s, WakeEach(s, l, r), l, r) && NoneAbove(WakeEach(s, l, r).rings, k)
    decreases |l|, 1
  {
    hide Kept, OnlyWoken, NoneAbove, Wake, WakeEach;
    WakeUnfold(s, l, r);
    if l != [] {
      var p, s1 := l[0], Wake(s, l[0], r);
      FirstOfRest(l);
      WakeKept(s, p, r, k);
      WokenBelow(s, s1, p, l[1..], r, k);
      WakeRest(s, s1, p, l[1..], r, k);
    } else {
      NoneWoken(s, r);
    }
  }

  lemma WakeUnfold(s: Sys, l: seq<int>, r: Resume)
    ensures WakeEach(s, l, r) == if l == [] then s else WakeEach(Wake(s, l[0], r), l[1..], r)
  {
  }

  lemma FirstOfRest(l: seq<int>)
    requires NoDups(l) && l != []
    ensures l == [l[0]] + l[1..] && l[0] in l && l[0] !in l[1..] && NoDups(l[1..])
    ensures forall q :: q in l[1..] ==> q in l
  {
  }

  lemma WokenBelow(s: Sys, s1: Sys, p: int, l: seq<int>, r: Resume, k: int)
    requires OnlyWoken(s, s1, [p], r) && p !in l && forall q :: q in l ==> q in s.procs && s.procs[q].priority <= k
    ensures forall q :: q in l ==> q in s1.procs && s1.procs[q].priority <= k
  {
  }

  lemma NoneWoken(s: Sys, r: Resume)
    ensures OnlyWoken(s, s, [], r)
  {
  }

  lemma {:induction false} WakeRest(s: Sys, s1: Sys, p: int, l: seq<int>, r: Resume, k: int)
    requires Kept(s1) && !r.ReapChild? && NoDups(l) && NoneAbove(s1.rings, k) && p !in l && OnlyWoken(s, s1, [p], r)
    requires forall q :: q in l ==> q in s1.procs && s1.procs[q].priority <= k
    ensures Kept(WakeEach(s1, l, r)) && OnlyWoken(s, WakeEach(s1, l, r), [p] + l, r)
    ensures NoneAbove(WakeEach(s1, l, r).rings, k)
    decreases |l| + 1, 0
  {
    hide Kept, OnlyWoken, NoneAbove;
    WakeEachKept(s1, l, r, k);
    OnlyWokenMore(s, s1, WakeEach(s1, l, r), p, l, r);
  }

  /** Waking processes, and switching to the most urgent one if it outranks the active process. */
  lemma WokenSound(s: Sys, l: seq<int>, r: Resume, top: int)
    requires Sound(s) && NoDups(l) && !r.ReapChild?
    requires forall p :: p in l ==> p in s.procs && !s.procs[p].state.Sched? && !s.procs[p].state.Zombie?
    requires if l == [] then top == NOBODY else top in l && forall p :: p in l ==>
        s.procs[p].priority <= s.procs[top].priority
    ensures Sound(Urgent(WakeEach(s, l, r), top))
  {
    hide Kept, WakeEach, Settled, NoneAbove, OnlyWoken;
    NobodyOnly(s);
    var a := s.procs[s.active].priority;
    var limit := if l != [] && s.procs[top].priority > a then s.procs[top].priority else a;
    RingsWiden(s.rings, a, limit);
    WakeEachKept(s, l, r, limit);
    var s1 := WakeEach(s, l, r);
    WokenFacts(s, s1, l, r);
    SettledWoken(s.procs, s1.procs, l, r);
    ActiveOnly(s1, top);
    UrgentReady(s, s1, l, r, top, limit);
  }

  lemma WokenFacts(s: Sys, s1: Sys, l: seq<int>, r: Resume)
    requires OnlyWoken(s, s1, l, r)
    ensures s1.active == s.active && s1.procs.Keys == s.procs.Keys
    ensures forall p :: p in s.procs ==> s1.procs[p] == if p in l then Woken(s.procs[p], r) else s.procs[p]
  {
  }

  lemma UrgentReady(s: Sys, s1: Sys, l: seq<int>, r: Resume, top: int, limit: int)
    requires Ready(s) && OnlyWoken(s, s1, l, r) && NoneAbove(s1.rings, limit) && NOBODY !in s.procs
    requires forall p :: p in l ==> p in s.procs && !s.procs[p].state.Sched?
    requires if l == [] then top == NOBODY else top in l
    requires var a := s.procs[s.active].priority;
             limit == if l != [] && s.procs[top].priority > a then s.procs[top].priority else a
    ensures Ready(Urgent(s1, top))
  {
    hide NoneAbove;
    WokenFacts(s, s1, l, r);
  }

  lemma NobodyOnly(s: Sys)
    requires Kept(s)
    ensures NOBODY !in s.procs && (s.active in s.procs ==> 0 <= s.procs[s.active].priority < |s.rings|)
  {
    assert s.active in s.procs ==> HasHome(s, s.active);
  }

  lemma SettledWoken(ps: Procs, ps': Procs, l: seq<int>, r: Resume)
    requires Settled(ps) && !r.ReapChild? && ps'.Keys == ps.Keys
    requires forall p :: p in l ==> p in ps && !ps[p].state.Sched? && !ps[p].state.Zombie?
    requires forall p :: p in ps ==> ps'[p] == if p in l then Woken(ps[p], r) else ps[p]
    ensures Settled(ps')
  {
    forall p | p in ps'
      ensures ReapsZombie(ps', p)
    {
      assert ReapsZombie(ps, p);
    }
  }

  lemma RingsWiden(rings: seq<seq<int>>, k: int, j: int)
    requires NoneAbove(rings, k) && k <= j
    ensures NoneAbove(rings, j)
  {
  }

  /** The system with the process that was woken active if it outranks the active one. */
  ghost function Urgent(s: Sys, top: int): Sys {
    if top in s.procs && s.active in s.procs && s.procs[top].priority > s.procs[s.active].priority
        then s.(active := top) else s
  }

  // ----- queues -----

  ghost function SetQueue(s: Sys, q: int, qu: Queue, sent: seq<int>, got: seq<int>): Sys {
    s.(queues := s.queues[q := qu], sent := s.sent[q := sent], got := s.got[q := got])
  }

  lemma SetQueueKept(s: Sys, q: int, qu: Queue, sent: seq<int>, got: seq<int>)
    requires Kept(s) && q in s.queues && qu.waiters == s.queues[q].waiters && QueueOk(qu) && sent == got + Contents(qu)
    requires qu.waiters != [] ==> qu.length == s.queues[q].length && qu.capacity == s.queues[q].capacity
    ensures Kept(SetQueue(s, q, qu, sent, got))
  {
    hide Homed;
    var s' := SetQueue(s, q, qu, sent, got);
    SameHomes(s, s');
    forall i | i in s'.queues
      ensures QueueSound(s', i)
    {
      assert QueueSound(s, i);
      if i != q {
        QueueSoundSame(s, s', i);
      } else {
        forall p | p in qu.waiters
          ensures WaitsRightly(s', q, p)
        {
          assert WaitsRightly(s, q, p);
        }
      }
    }
  }

  /** A queue that nobody has used or waits for comes or goes. */
  lemma NewQueueKept(s: Sys, q: int, qu: Queue)
    requires Kept(s) && q !in s.queues && qu.waiters == [] && QueueOk(qu) && qu.length == 0
    ensures Kept(SetQueue(s, q, qu, [], []))
  {
    var s' := SetQueue(s, q, qu, [], []);
    forall p | p in s'.procs
      ensures HasHome(s', p)
    {
      assert HasHome(s, p);
    }
    forall h | HasList(s', h)
      ensures Houses(s', h)
    {
      if h != InQueue(q) {
        assert HasList(s, h) && List(s', h) == List(s, h);
        assert Houses(s, h);
      } else {
        assert forall p :: p in s.procs && HomeOf(s.procs[p]) == h ==> HasHome(s, p);
      }
    }
    forall i | i in s'.queues
      ensures QueueSound(s', i)
    {
      if i != q {
        assert QueueSound(s, i);
        QueueSoundSame(s, s', i);
      }
    }
  }

  lemma DropQueueKept(s: Sys, q: int)
    requires Kept(s) && q in s.queues && s.queues[q].waiters == []
    ensures Kept(s.(queues := s.queues - {q}))
  {
    var s' := s.(queues := s.queues - {q});
    assert Houses(s, InQueue(q));
    forall p | p in s'.procs
      ensures HasHome(s', p)
    {
      assert HasHome(s, p);
      assert p !in List(s, InQueue(q));
    }
    forall h | HasList(s', h)
      ensures Houses(s', h)
    {
      assert HasList(s, h) && List(s', h) == List(s, h);
      assert Houses(s, h);
    }
    forall i | i in s'.queues
      ensures QueueSound(s', i)
    {
      assert QueueSound(s, i);
      QueueSoundSame(s, s', i);
    }
  }

  lemma SetConsoleKept(s: Sys, flushed: seq<char>, armed: bool)
    requires Kept(s) && (s.cons == [] || (flushed == "" && armed)) && |flushed| <= ALL_BUFFER_CAP
    ensures Kept(s.(flushed := flushed, armed := armed))
  {
    hide Homed;
    var s' := s.(flushed := flushed, armed := armed);
    SameHomes(s, s');
    forall q | q in s'.queues
      ensures QueueSound(s', q)
    {
      assert QueueSound(s, q);
      QueueSoundSame(s, s', q);
    }
  }
}
