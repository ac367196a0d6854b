/** The invariant of the process kernel, and what single steps keep of it. */
module ProcessState {
  import opened Lists
  import opened Processes
  import opened ProcessTree
  import opened MessageQueues

  /** A waiting sender's queue is full, a waiting receiver's queue is empty. */
  ghost predicate WaitsRightly(s: Sys, queue: int, p: int)
    requires queue in s.queues
  {
    && p in s.procs && s.procs[p].state.WaitQueue?
    && s.queues[queue].length == if s.procs[p].state.sending then s.queues[queue].capacity else 0
  }

  ghost predicate QueueSound(s: Sys, queue: int)
    requires queue in s.queues
  {
    && QueueOk(s.queues[queue])
    && (forall p {:trigger WaitsRightly(s, queue, p)} :: p in s.queues[queue].waiters ==> WaitsRightly(s, queue, p))
    && queue in s.sent && queue in s.got && s.sent[queue] == s.got[queue] + Contents(s.queues[queue])
  }

  /** Every queue is a sound buffer: what went in is what came out and what is still there, in order. */
  ghost predicate Queued(s: Sys) {
    forall q {:trigger QueueSound(s, q)} :: q in s.queues ==> QueueSound(s, q)
  }

  /** A reader waits only while there is nothing to read, and the console will wake it. What is flushed fits in its
      buffer. */
  ghost predicate ConsoleOk(s: Sys) { |s.flushed| <= ALL_BUFFER_CAP && (s.cons != [] ==> s.flushed == "" && s.armed) }

  /** Sleepers are ordered by the time they wait for. */
  ghost predicate SleepSorted(ps: Procs, l: seq<int>) {
    && (forall p :: p in l ==> p in ps && ps[p].state.WaitTime?)
    && (l != [] ==> SleepSorted(ps, l[1..]) && forall p :: p in l ==> ps[l[0]].state.clock <= ps[p].state.clock)
  }

  /** What holds at every moment, even in the middle of a step. */
  ghost predicate Kept(s: Sys) {
    Homed(s) && Tree(s.procs, s.depth) && Queued(s) && ConsoleOk(s) && SleepSorted(s.procs, s.sleepers)
  }

  /** No process is half dead, a parent about to reap has a zombie to reap, and idle never blocks. */
  ghost predicate Settled(ps: Procs) {
    && IDLE in ps && ps[IDLE].state.Sched?
    && (forall p :: p in ps ==> !ps[p].state.Dying?)
    && (forall p :: p in ps ==> ReapsZombie(ps, p))
  }

  ghost predicate ReapsZombie(ps: Procs, p: int)
    requires p in ps
  {
    ps[p].state.Sched? && ps[p].state.resume.ReapChild? ==>
      ps[p].state.resume.child in ps && ps[ps[p].state.resume.child].state.Zombie?
  }

  // ----- readiness -----

  /** No process is ready above a priority. */
  ghost predicate NoneAbove(rings: seq<seq<int>>, k: int) { forall j :: 0 <= j < |rings| && k < j ==> rings[j] == [] }

  /** The active process is ready, and no other is ready at a higher priority. */
  ghost predicate Ready(s: Sys) {
    s.active in s.procs && s.procs[s.active].state.Sched? && NoneAbove(s.rings, s.procs[s.active].priority)
  }

  ghost predicate Sound(s: Sys) { Kept(s) && Settled(s.procs) && Ready(s) }

  predicate NoneDying(ps: Procs) { forall p :: p in ps ==> !ps[p].state.Dying? }

  /** What holds between two entries, even when the active process is not the most urgent one: each process is in
      exactly the list its state names, the tree, the queues, the console and the sleepers are well formed, and nobody
      is in the middle of being killed. */
  ghost predicate Steady(s: Sys) { Kept(s) && NoneDying(s.procs) }

  ghost predicate ActiveReady(s: Sys) { s.active in s.procs && s.procs[s.active].state.Sched? }

  // ----- one process moves -----

  /** A record that a process may get without disturbing the tree, the queues, the console or the sleepers. */
  ghost predicate Fits(s: Sys, old_: Proc, pc: Proc) {
    && pc.parent == old_.parent && pc.children == old_.children && CanEnter(s, pc)
    && (pc.state.Zombie? ==> pc.children == [])
    && (pc.state.Sched? && pc.state.resume.ReapChild? ==> pc.state.resume.child in pc.children)
    && (pc.state.WaitQueue? ==>
          s.queues[pc.state.queue].length == if pc.state.sending then s.queues[pc.state.queue].capacity else 0)
    && (pc.state.WaitCons? ==> s.flushed == "" && s.armed)
    && (pc.state.WaitTime? ==> forall q :: q in s.sleepers && q in s.procs && s.procs[q].state.WaitTime? ==>
        pc.state.clock <= s.procs[q].state.clock)
  }

  lemma MoveTree(ps: Procs, depth: Depths, p: int, pc: Proc)
    requires Tree(ps, depth) && p in ps && pc.parent == ps[p].parent && pc.children == ps[p].children
    requires pc.state.Zombie? ==> pc.children == []
    requires pc.state.Sched? && pc.state.resume.ReapChild? ==> pc.state.resume.child in pc.children
    ensures Tree(ps[p := pc], depth)
  {
    var ps' := ps[p := pc];
    forall q | q in ps'
      ensures Branch(ps', depth, q)
    {
      assert Branch(ps, depth, q);
    }
  }

  /** Nothing but the lists differs. */
  ghost predicate SameButLists(s: Sys, s': Sys) {
    && s' == s.(rings := s'.rings, queues := s'.queues, cons := s'.cons, sleepers := s'.sleepers)
    && s'.queues.Keys == s.queues.Keys
    && forall q :: q in s.queues ==> s'.queues[q] == s.queues[q].(waiters := s'.queues[q].waiters)
  }

  lemma PutListFields(s: Sys, h: Home, l: seq<int>)
    requires HasList(s, h)
    ensures SameButLists(s, PutList(s, h, l))
  {
  }

  lemma MoveFields(s: Sys, p: int, pc: Proc)
    requires p in s.procs && HasHome(s, p) && CanEnter(s, pc)
    ensures SameButLists(s.(procs := s.procs[p := pc]), Move(s, p, pc))
  {
    hide PutList;
    var h, g := HomeOf(s.procs[p]), HomeOf(pc);
    if h != Nowhere {
      PutListFields(s, h, Remove(List(s, h), p));
    }
    var s1 := Leave(s, p).(procs := s.procs[p := pc]);
    assert SameButLists(s.(procs := s.procs[p := pc]), s1);
    LeaveLists(s, p, g);
    if g != Nowhere {
      PutListFields(s1, g, [p] + List(s1, g));
    }
  }

  lemma MoveQueued(s: Sys, p: int, pc: Proc)
    requires Homed(s) && Queued(s) && p in s.procs && HasHome(s, p) && Fits(s, s.procs[p], pc) && Homed(Move(s, p, pc))
    ensures Queued(Move(s, p, pc))
  {
    hide Move;
    var s' := Move(s, p, pc);
    MoveFields(s, p, pc);
    forall q | q in s'.queues
      ensures QueueSound(s', q)
    {
      assert QueueSound(s, q);
      assert Contents(s'.queues[q]) == Contents(s.queues[q]);
      MoveLists(s, p, pc, InQueue(q));
      assert Houses(s', InQueue(q)) && Houses(s, InQueue(q));
      forall x | x in s'.queues[q].waiters
        ensures WaitsRightly(s', q, x)
      {
        if x != p {
          assert x in s.queues[q].waiters;
          assert WaitsRightly(s, q, x);
        }
      }
    }
  }

  lemma {:induction false} SortedSame(ps: Procs, ps': Procs, l: seq<int>)
    requires SleepSorted(ps, l) && forall p :: p in l ==> p in ps' && ps'[p].state == ps[p].state
    ensures SleepSorted(ps', l)
  {
    if l != [] {
      var first := l[0];
      assert first in l;
      SortedSame(ps, ps', l[1..]);
      forall p | p in l
        ensures ps'[first].state.clock <= ps'[p].state.clock
      {
        assert ps'[p].state == ps[p].state;
      }
    }
  }

  lemma {:induction false} SortedWithout(ps: Procs, l: seq<int>, k: set<int>)
    requires SleepSorted(ps, l)
    ensures SleepSorted(ps, Without(l, k))
  {
    if l != [] {
      SortedWithout(ps, l[1..], k);
    }
  }

  lemma MoveSorted(s: Sys, p: int, pc: Proc)
    requires Homed(s) && SleepSorted(s.procs, s.sleepers) && p in s.procs && HasHome(s, p) && Fits(s, s.procs[p], pc)
    ensures SleepSorted(Move(s, p, pc).procs, Move(s, p, pc).sleepers)
  {
    hide Move, Homed;
    MoveLists(s, p, pc, Asleep);
    assert Houses(s, Asleep) by {
      SleepersHoused(s);
    }
    RestSorted(s.procs, s.sleepers, p, pc);
    var rest := Remove(s.sleepers, p);
    if pc.state.WaitTime? {
      assert ([p] + rest)[1..] == rest;
    }
  }

  lemma SleepersHoused(s: Sys)
    requires Homed(s)
    ensures Houses(s, Asleep)
  {
  }

  lemma RestSorted(ps: Procs, l: seq<int>, p: int, pc: Proc)
    requires SleepSorted(ps, l) && NoDups(l)
    ensures SleepSorted(ps[p := pc], Remove(l, p)) && forall q :: q in Remove(l, p) <==> q in l && q != p
  {
    SortedWithout(ps, l, {p});
    WithoutOne(l, p);
    SortedSame(ps, ps[p := pc], Without(l, {p}));
  }

  lemma MoveKept(s: Sys, p: int, pc: Proc)
    requires Kept(s) && p in s.procs && Fits(s, s.procs[p], pc)
    ensures HasHome(s, p) && Kept(Move(s, p, pc))
  {
    hide Move, Queued, Tree, SleepSorted;
    assert HasHome(s, p);
    MoveHomed(s, p, pc);
    MoveTree(s.procs, s.depth, p, pc);
    MoveQueued(s, p, pc);
    MoveSorted(s, p, pc);
    MoveFields(s, p, pc);
    MoveLists(s, p, pc, OnConsole);
    assert s.cons == [] ==> p !in s.cons;
  }

  // ----- processes disappear -----

  lemma PruneQueued(s: Sys, k: set<int>)
    requires Queued(s) && Homed(s)
    ensures Queued(Prune(s, k))
  {
    var s' := Prune(s, k);
    forall q | q in s'.queues
      ensures QueueSound(s', q)
    {
      assert QueueSound(s, q);
      assert Contents(s'.queues[q]) == Contents(s.queues[q]);
      forall x | x in s'.queues[q].waiters
        ensures WaitsRightly(s', q, x)
      {
        assert WaitsRightly(s, q, x);
      }
    }
  }

  lemma PruneKept(s: Sys, k: set<int>)
    requires Kept(s) && Closed(s.procs, k) && IDLE !in k
    requires forall p :: p in s.procs && p !in k && s.procs[p].state.Sched? && s.procs[p].state.resume.ReapChild? ==>
               s.procs[p].state.resume.child !in k
    ensures Kept(Prune(s, k))
  {
    var s' := Prune(s, k);
    PruneHomed(s, k);
    PruneTree(s.procs, s.depth, k);
    PruneQueued(s, k);
    SortedWithout(s.procs, s.sleepers, k);
    SortedSame(s.procs, s'.procs, s'.sleepers);
    if s.cons == [] {
      WithoutNone(s.cons, k);
    }
  }

  // ----- choosing the next process -----

  /** Position of a process in a list. */
  function IndexOf(l: seq<int>, p: int): (i: nat)
    requires p in l
    ensures i < |l| && l[i] == p
  {
    if l[0] == p then 0 else IndexOf(l[1..], p) + 1
  }

  /** The process after p in its ring, which is p itself when it is alone. */
  function After(l: seq<int>, p: int): int
    requires p in l
  {
    var i := IndexOf(l, p) + 1;
    if i == |l| then l[0] else l[i]
  }

  /** What process_sched_ring_remove returns: the process after p, NOBODY when p is alone. */
  function NextOf(l: seq<int>, p: int): int
    requires p in l
  {
    if After(l, p) == p then NOBODY else After(l, p)
  }

  /** The head of the highest ring below a priority that is not empty; NOBODY when all are empty. */
  function HighestBelow(rings: seq<seq<int>>, k: nat): int
    requires k <= |rings|
  {
    if k == 0 then NOBODY else if rings[k - 1] != [] then rings[k - 1][0] else HighestBelow(rings, k - 1)
  }

  lemma AfterInRing(l: seq<int>, p: int)
    requires NoDups(l) && p in l
    ensures After(l, p) in l && (After(l, p) == p <==> l == [p])
    ensures l != [p] ==> After(l, p) in Remove(l, p)
    ensures l == [p] <==> Remove(l, p) == []
  {
    RemoveMembers(l, p);
    var i := IndexOf(l, p) + 1;
    if i == |l| && |l| > 1 {
      assert l[0] != l[i - 1];
    }
  }

  lemma {:induction false} HighestIsTop(s: Sys, k: nat)
    requires Homed(s) && k <= |s.rings| && NoneAbove(s.rings, k - 1)
    ensures var p := HighestBelow(s.rings, k);
            if p == NOBODY then forall j :: 0 <= j < |s.rings| ==> s.rings[j] == []
            else p in s.procs && s.procs[p].state.Sched? && NoneAbove(s.rings, s.procs[p].priority)
    requires NOBODY !in s.procs
  {
    if k > 0 {
      assert Houses(s, Ring(k - 1));
      if s.rings[k - 1] != [] {
        assert s.rings[k - 1][0] in s.rings[k - 1];
      } else {
        HighestIsTop(s, k - 1);
      }
    }
  }

  lemma InItsRing(s: Sys, p: int)
    requires Homed(s) && p in s.procs && s.procs[p].state.Sched?
    ensures 0 <= s.procs[p].priority < |s.rings| && p in s.rings[s.procs[p].priority]
    ensures NoDups(s.rings[s.procs[p].priority])
    ensures forall q :: q in s.rings[s.procs[p].priority] ==>
        q in s.procs && s.procs[q].state.Sched? && s.procs[q].priority == s.procs[p].priority
  {
    assert HasHome(s, p);
    assert Houses(s, Ring(s.procs[p].priority));
  }

  /** The process that process_sched_advance switches to. */
  ghost function Successor(s: Sys, next: int): int
    requires Homed(s) && s.active in s.procs
  {
    if next != NOBODY then next
    else if s.procs[s.active].state.Sched?
        then InItsRing(s, s.active); After(s.rings[s.procs[s.active].priority], s.active)
    else assert HasHome(s, s.active); HighestBelow(s.rings, s.procs[s.active].priority)
  }
}
