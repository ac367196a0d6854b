/** What follows for runs of the process kernel, and concrete systems in which a call breaks its promise. */
module ProcessRuns {
  import opened Integers
  import opened Texts
  import opened Lists
  import opened Processes
  import opened ProcessTree
  import opened SleepWalks
  import opened ProcessOrder
  import opened MessageQueues
  import opened ProcessState
  import opened ProcessSteps
  import opened ProcessLife
  import opened ProcessDeath
  import opened ProcessSwitch
  import opened ProcessAway
  import opened ProcessQueues
  import opened ProcessSteady
  import opened ProcessKernel

  // ----- round robin -----

  ghost function ActiveRing(s: Sys): seq<int>
    requires Sound(s)
  {
    InItsRing(s, s.active);
    s.rings[s.procs[s.active].priority]
  }

  /** The system after k timer ticks. */
  ghost function Ticks(s: Sys, k: nat): Sys
    requires Sound(s)
    decreases k
  {
    if k == 0 then s else TickSound(s); Ticks(s.(active := Successor(s, NOBODY)), k - 1)
  }

  lemma TickSound(s: Sys)
    requires Sound(s)
    ensures Sound(s.(active := Successor(s, NOBODY)))
  {
    InItsRing(s, s.active);
    AfterInRing(s.rings[s.procs[s.active].priority], s.active);
    ActiveOnly(s, Successor(s, NOBODY));
  }

  lemma IndexUnique(l: seq<int>, i: nat)
    requires NoDups(l) && i < |l|
    ensures IndexOf(l, l[i]) == i
  {
  }

  /** Timer ticks give the processor to the processes of the active ring in turn, for ever. */
  lemma {:induction false} RoundRobin(s: Sys, k: nat, i: nat)
    requires Sound(s)
    requires var l := ActiveRing(s); i < |l| && l[i] == s.active
    ensures var l := ActiveRing(s);
            |l| > 0 && Ticks(s, k).active == l[(i + k) % |l|] && Ticks(s, k) == s.(active := l[(i + k) % |l|])
    decreases k
  {
    InItsRing(s, s.active);
    var l := ActiveRing(s);
    if k == 0 {
      WrapSmall(i, |l|);
    } else {
      IndexUnique(l, i);
      TickSound(s);
      var next, j := Successor(s, NOBODY), if i + 1 == |l| then 0 else i + 1;
      assert next == l[j] && next in l;
      RoundRobin(s.(active := next), k - 1, j);
      WrapStep(i, k, |l|);
    }
  }

  lemma WrapSmall(i: nat, n: nat)
    requires i < n
    ensures i % n == i
  {
  }

  lemma WrapStep(i: nat, k: nat, n: nat)
    requires i < n && k > 0
    ensures ((if i + 1 == n then 0 else i + 1) + (k - 1)) % n == (i + k) % n
  {
    if i + 1 == n {
      assert i + k == n + (k - 1);
      AddWrap(k - 1, n);
    }
  }

  lemma AddWrap(a: nat, n: nat)
    requires n > 0
    ensures (n + a) % n == a % n
  {
    assert n + a == (a / n + 1) * n + a % n;
    DivUnique(n + a, n, a / n + 1, a % n);
  }

  /** Every process of the ring gets its turn within one round. */
  lemma EveryTurn(s: Sys, p: int) returns (k: nat)
    requires Sound(s) && p in ActiveRing(s)
    ensures k < |ActiveRing(s)| && Ticks(s, k).active == p
  {
    InItsRing(s, s.active);
    var l := ActiveRing(s);
    var i, j := IndexOf(l, s.active), IndexOf(l, p);
    k := if j >= i then j - i else j - i + |l|;
    RoundRobin(s, k, i);
    if j >= i {
      WrapSmall(j, |l|);
    } else {
      AddWrap(j, |l|);
      WrapSmall(j, |l|);
    }
  }

  // ----- messages -----

  /** What came out of a queue is, in order, the beginning of what went in; the rest is still there. */
  lemma FirstInFirstOut(s: Sys, q: int)
    requires Kept(s) && q in s.queues
    ensures q in s.sent && q in s.got && s.got[q] <= s.sent[q] && QueueOk(s.queues[q])
    ensures s.sent[q][|s.got[q]|..] == Contents(s.queues[q])
  {
    assert QueueSound(s, q);
  }

  /** Waiters of a queue all wait for the same thing, and only when they must. */
  lemma WaitersAgree(s: Sys, q: int, p: int)
    requires Kept(s) && q in s.queues && p in s.queues[q].waiters
    ensures p in s.procs && s.procs[p].state.WaitQueue?
    ensures if s.procs[p].state.sending then s.queues[q].length == s.queues[q].capacity else s.queues[q].length == 0
    ensures forall x :: x in s.queues[q].waiters ==>
        x in s.procs && s.procs[x].state.WaitQueue? && s.procs[x].state.sending == s.procs[p].state.sending
  {
    assert QueueSound(s, q) && WaitsRightly(s, q, p);
    forall x | x in s.queues[q].waiters
      ensures x in s.procs && s.procs[x].state.WaitQueue? && s.procs[x].state.sending == s.procs[p].state.sending
    {
      assert WaitsRightly(s, q, x);
    }
  }

  // ----- concrete systems -----

  ghost function JustIdle(): (s: Sys)
    ensures Sound(s) && s.active == IDLE && s.procs == map[IDLE := Proc(NOBODY, [], 0, Sched(Nothing))]
    ensures s.depth == map[IDLE := 0] && s.cons == [] && s.sleepers == [] && s.flushed == ""
  {
    var s := Sys(map[IDLE := Proc(NOBODY, [], 0, Sched(Nothing))],
        seq(MAX_PRIORITY, i => if i == 0 then [IDLE] else []), map[], [], [],
                 IDLE, "", false, map[IDLE := 0], map[], map[]);
    FirstSound(s);
    s
  }

  /** Idle has started a process of priority k, which runs. */
  ghost function WithChild(k: int): (s: Sys)
    requires 0 < k < MAX_PRIORITY
    ensures Sound(s) && s.active == 1 && s.procs.Keys == {IDLE, 1} && s.procs[1] == Newborn(IDLE, k)
    ensures s.procs[IDLE] == Proc(NOBODY, [1], 0, Sched(Nothing)) && s.depth == map[IDLE := 0, 1 := 1]
    ensures |s.rings| == MAX_PRIORITY && s.rings[k] == [1] && s.rings[0] == [IDLE]
  {
    KeptRings(JustIdle());
    BornSound(JustIdle(), 1, k);
    EnterRing(JustIdle(), 1, Newborn(IDLE, k));
    Urgent(Born(JustIdle(), 1, k), 1)
  }

  /** The active process starts one that does not outrank it. */
  lemma QuietBirth(s: Sys, c: int, k: int) returns (t: Sys)
    requires Sound(s) && c !in s.procs && c > 0 && s.active in s.procs && 0 <= k <= s.procs[s.active].priority
    ensures s.active in s.depth && k < |s.rings| == MAX_PRIORITY && Sound(t) && t.active == s.active
    ensures t.procs == s.procs[c := Newborn(s.active,
        k)][s.active := s.procs[s.active].(children := [c] + s.procs[s.active].children)]
    ensures t.rings == s.rings[k := [c] + s.rings[k]] && t.depth == s.depth[c := s.depth[s.active] + 1]
  {
    KeptRings(s);
    BornSound(s, c, k);
    EnterRing(s, c, Newborn(s.active, k));
    t := Urgent(Born(s, c, k), c);
  }

  /** A process that starts a child of its own priority and exits at once switches to the child, which it has just
      freed. */
  lemma ExitToOwnChild() returns (s: Sys)
    ensures Sound(s) && s.active != IDLE && !ExitSafe(s) && !Sound(Exited(s, 0))
  {
    s := QuietBirth(WithChild(1), 2, 1);
    hide WithChild;
    assert IndexOf([2, 1], 1) == 1;
    assert ExitNext(s, 1) == 2;
    ChildBelow(s);
    ExitSound(s, 0);
  }

  lemma ChildBelow(s: Sys)
    requires s.procs.Keys == {IDLE, 1, 2} && s.procs[2].parent == 1 && s.depth == map[IDLE := 0, 1 := 1, 2 := 2]
    ensures 2 in Subtree(s, 1) - {1}
  {
    var par := Parents(s.procs);
    assert par[2] == 1 && Ancestor(par, s.depth, 1, 1) && Ancestor(par, s.depth, 2, 1);
  }

  /** What is left when the active process blocks after idle was raised above it: no process below its priority. */
  ghost predicate NoneToRun(t: Sys) {
    && Homed(t) && t.active in t.procs && HasHome(t, t.active) && t.procs[t.active].state.Sched?
    && t.procs[t.active].priority < |t.rings|
    && var u := Move(t, t.active, t.procs[t.active].(state := WaitChild(-1)));
       && u.active == t.active && t.procs[t.active].priority <= |u.rings| && 0 <= t.procs[t.active].priority
       && HighestBelow(u.rings, t.procs[t.active].priority) == NOBODY
  }

  /** Raising idle above the active process does not switch to it; when the active process then blocks, the search below
      its priority finds nobody. */
  lemma RaisedIdle() returns (s: Sys)
    ensures Sound(s) && s.active == 1 && IDLE in s.procs && !PrioritySafe(s, IDLE, 5)
    ensures !Sound(Ranked(s, IDLE, 5)) && NoneToRun(Ranked(s, IDLE, 5))
  {
    s := WithChild(1);
    PrioritySound(s, IDLE, 5);
    RerankedKept(s, IDLE, 5);
    var t := Ranked(s, IDLE, 5);
    ActiveOnly(Reranked(s, IDLE, 5), t.active);
    assert HasHome(t, 1);
    var u := Move(t, 1, t.procs[1].(state := WaitChild(-1)));
    MoveFields(t, 1, t.procs[1].(state := WaitChild(-1)));
    MoveHomed(t, 1, t.procs[1].(state := WaitChild(-1)));
    SearchFails(u, 1);
  }

  lemma TwoChildren() returns (t: Sys)
    ensures Sound(t) && t.active == 1 && t.procs.Keys == {IDLE, 1, 2, 3} && t.procs[2] == Newborn(1, 1)
    ensures t.procs[3] == Newborn(1, 1)
    ensures t.procs[1] == Proc(IDLE, [3, 2], 2, Sched(Nothing)) && t.procs[IDLE].state == Sched(Nothing)
    ensures t.depth == map[IDLE := 0, 1 := 1, 2 := 2, 3 := 2]
    ensures |t.rings| == MAX_PRIORITY && t.rings[2] == [1] && t.rings[1] == [3, 2]
  {
    var t1 := QuietBirth(WithChild(2), 2, 1);
    t := QuietBirth(t1, 3, 1);
  }

  /** A process of priority 2 has started two of priority 1 and waits for the first of them, so that the second one
      runs. */
  lemma ParentWaits() returns (s: Sys)
    ensures Sound(s) && s.active == 3 && s.procs.Keys == {IDLE, 1, 2, 3} && s.procs[3].priority == 1
    ensures s.procs[1] == Proc(IDLE, [3, 2], 2, WaitChild(2)) && s.procs[2] == Newborn(1, 1)
    ensures s.procs[3] == Newborn(1, 1)
    ensures s.procs[IDLE].state == Sched(Nothing) && s.depth == map[IDLE := 0, 1 := 1, 2 := 2, 3 := 2]
  {
    var t := TwoChildren();
    hide Sound;
    var pc := t.procs[1].(state := WaitChild(2));
    BlockHere(t, pc);
    s := Block(t, pc);
    BlockedFields(t, pc);
  }

  lemma BlockHere(t: Sys, pc: Proc)
    requires Sound(t) && t.active == 1 && pc == t.procs[1].(state := WaitChild(2))
    ensures CanBlock(t, pc) && HasHome(t, 1) && Sound(Block(t, pc))
  {
    assert HasHome(t, 1);
    BlockSound(t, pc);
  }

  lemma BlockedFields(t: Sys, pc: Proc)
    requires CanBlock(t, pc) && t.active == 1 && HasHome(t, 1) && t.procs[1].priority == 2 && t.rings[2] == [1]
    requires t.rings[1] == [3, 2]
    requires |t.rings| == MAX_PRIORITY && t.procs[1].state.Sched? && HomeOf(pc) == Nowhere && pc.priority == 2
    ensures Block(t, pc).active == 3 && Block(t, pc).procs == t.procs[1 := pc] && Block(t, pc).depth == t.depth
  {
    MoveFields(t, 1, pc);
    MoveLists(t, 1, pc, Ring(2));
    MoveLists(t, 1, pc, Ring(1));
    assert NextOf([1], 1) == NOBODY;
    assert Remove([1], 1) == [];
  }

  /** Killing the process that a more urgent one waits for makes that one ready, but the killer stays active. */
  lemma KillWakesUrgentParent() returns (s: Sys)
    ensures Sound(s) && s.active == 3 && 2 in s.procs && s.active !in Subtree(s, 2) && !KillSafe(s, 2)
    ensures 2 in ParentTold(s, 2).procs && HasHome(ParentTold(s, 2), 2) && !Sound(Killed(ParentTold(s, 2), 2, 0))
  {
    s := ParentWaits();
    NotBelow(s);
    hide Sound, Killed, ParentTold, Subtree;
    KillSound(s, 2);
  }

  lemma NotBelow(s: Sys)
    requires s.depth == map[IDLE := 0, 1 := 1, 2 := 2, 3 := 2]
    ensures 3 !in Subtree(s, 2)
  {
    if 3 in Subtree(s, 2) {
      AncestorDeeper(Parents(s.procs), s.depth, 3, 2);
    }
  }

  /** The active process starts one that outranks it, which runs. */
  lemma UrgentBirth(s: Sys, c: int, k: int) returns (t: Sys)
    requires Sound(s) && c !in s.procs && c > 0 && s.active in s.procs && s.procs[s.active].priority < k < MAX_PRIORITY
    ensures s.active in s.depth && Sound(t) && t.active == c && t.sleepers == s.sleepers
    ensures t.depth == s.depth[c := s.depth[s.active] + 1]
    ensures t.procs == s.procs[c := Newborn(s.active,
        k)][s.active := s.procs[s.active].(children := [c] + s.procs[s.active].children)]
  {
    KeptRings(s);
    BornSound(s, c, k);
    EnterRing(s, c, Newborn(s.active, k));
    t := Urgent(Born(s, c, k), c);
  }

  /** The active process goes to sleep while all others but idle sleep already. */
  lemma FallsAsleep(s: Sys, clock: int) returns (t: Sys)
    requires Sound(s) && s.active != IDLE && InsertsAtHead(s.procs, s.sleepers, clock)
    requires forall p :: p in s.procs ==> p == IDLE || p == s.active || s.procs[p].state.WaitTime?
    ensures s.active in s.procs && Sound(t) && t.active == IDLE && t.sleepers == [s.active] + s.sleepers
    ensures t.depth == s.depth
    ensures t.procs == s.procs[s.active := s.procs[s.active].(state := WaitTime(clock))]
  {
    SleepFits(s, clock);
    var pc := s.procs[s.active].(state := WaitTime(clock));
    assert HasHome(s, s.active);
    BlockSound(s, pc);
    MoveFields(s, s.active, pc);
    MoveLists(s, s.active, pc, Asleep);
    t := Block(s, pc);
  }

  /** Two children of idle sleep, the second one for a shorter time, and a third one runs. */
  lemma TwoSleepers() returns (s: Sys)
    ensures Sound(s) && s.active == 3 && s.sleepers == [2, 1] && s.procs.Keys == {IDLE, 1, 2, 3}
    ensures s.procs[1] == Proc(IDLE, [], 1, WaitTime(20)) && s.procs[2] == Proc(IDLE, [], 1, WaitTime(10))
  {
    hide Sound;
    s := UrgentBirth(JustIdle(), 1, 1);
    s := FallsAsleep(s, 20);
    s := UrgentBirth(s, 2, 1);
    s := FallsAsleep(s, 10);
    s := UrgentBirth(s, 3, 1);
  }

  /** With two sleepers the kernel hangs when a process goes to sleep until a time after that of the first, and when
      the second is killed; the first can be killed. */
  lemma SecondSleeperHangs() returns (s: Sys)
    ensures Sound(s) && s.active != IDLE && {1, 2} <= s.procs.Keys && !s.procs[1].state.Zombie?
    ensures !s.procs[2].state.Zombie?
    ensures !InsertionEnds(s.procs, s.sleepers, s.active, 15) && !RemovalEnds(s.sleepers, 1)
    ensures !WalksEnd(s, 1) && WalksEnd(s, 2)
  {
    s := TwoSleepers();
    InsertionEndsAtHead(s.procs, s.sleepers, s.active, 15);
    RemovalEndsAtHead(s.sleepers, 1);
    OnlySelf(s, 1);
    OnlySelf(s, 2);
  }

  lemma OnlySelf(s: Sys, p: int)
    requires Tree(s.procs, s.depth) && p in s.procs && s.procs[p].children == [] && s.procs[p].state.WaitTime?
    ensures SleepersOf(s.procs, ReachedBy(s, p)) == [p]
  {
    assert ReachedUnder(s, p) == [];
    assert ReachedBy(s, p) == [p] && [p][1..] == [];
    assert SleepersOf(s.procs, []) == [];
  }

  /** A process that was started by a child of idle kills that child, its parent, while that is ready: the call never
      comes back, idle runs, and the parent is ready as far as its state says, but in no ring. */
  lemma KillsOwnParent() returns (s: Sys)
    ensures Sound(s) && s.active == 2 && 1 in s.procs && !s.procs[1].state.Zombie? && 2 in Subtree(s, 1)
    ensures WalksEnd(s, 1)
    ensures forall r {:trigger AwayAfterKill(s, 1, r)} :: AwayAfterKill(s, 1, r) ==>
              r.active == IDLE && 1 in r.procs && r.procs[1].state == Sched(Nothing) && !Homed(r)
  {
    hide Sound, WithChild, Subtree, WalksEnd, AwayAfterKill, Tree, Homed;
    s := UrgentBirth(WithChild(1), 2, 2);
    NobodySleeps(s, 1);
    ChildBelow(s);
    forall r | AwayAfterKill(s, 1, r)
      ensures r.active == IDLE && 1 in r.procs && r.procs[1].state == Sched(Nothing) && !Homed(r)
    {
      IdleTakesOver(s, r);
    }
  }

  lemma NobodySleeps(s: Sys, p: int)
    requires Sound(s) && p in s.procs && forall x :: x in s.procs ==> !s.procs[x].state.WaitTime?
    ensures Tree(s.procs, s.depth) && WalksEnd(s, p)
  {
    SleepersMembers(s.procs, ReachedBy(s, p));
    NoMembers(SleepersOf(s.procs, ReachedBy(s, p)));
  }

  lemma IdleTakesOver(s: Sys, s': Sys)
    requires Sound(s) && s.active == 2 && s.procs.Keys == {IDLE, 1, 2} && s.procs[IDLE].state.Sched?
    requires s.procs[2].children == []
    requires 2 in Subtree(s, 1) - {1} && s.procs[1].parent == IDLE && s.procs[1].state == Sched(Nothing)
    requires AwayAfterKill(s, 1, s')
    ensures s'.active == IDLE && 1 in s'.procs && s'.procs[1].state == Sched(Nothing) && !Homed(s')
  {
    hide Homed, Queued, SleepSorted, SwitchedTo, LeftAs, SwitchedAway;
    SoundKillable(s, 1);
    NoneDyingSound(s);
    assert ParentTold(s, 1) == s;
    var r :| SwitchedAway(s, 1, r) && s' == AsStored(r);
    SelfBelow(s, 1);
    DyingAre(s, 1, r, 1);
    StoredBroken(r, 1) by {
      AwayIsKept(s, 1, r);
    }
    OnlyIdleLeft(s, r);
  }

  lemma AwayIsKept(s: Sys, p: int, r: Sys)
    requires SwitchedAway(s, p, r)
    ensures Kept(r)
  {
  }

  lemma OnlyIdleLeft(s: Sys, r: Sys)
    requires Sound(s) && s.active == 2 && s.procs.Keys == {IDLE, 1, 2} && s.procs[2].children == [] && Killable(s, 1)
    requires 2 in Subtree(s, 1) - {1} && SwitchedAway(s, 1, r)
    ensures r.active == IDLE
  {
    hide Homed, Queued, SleepSorted, SwitchedTo, LeftAs;
    LeafBelow(s.procs, s.depth, 2);
    AwayRuns(s, 1, r);
    ReachedMembers(s.procs, s.depth, 1, 2);
    ReachedBelow(s.procs, s.depth, 1, 2);
    if r.active in r.procs {
      AwayReady(s, 1, r, r.active);
    }
  }

  /** The second child kills its parent while that waits for the first child: the call never comes back, but the
      parent waits on as if nothing had happened, and the death of the first child will wake it. */
  lemma KilledParentLivesOn() returns (s: Sys)
    ensures Sound(s) && s.active == 3 && 1 in s.procs && 2 in s.procs && s.procs[1].state == WaitChild(2)
    ensures 3 in Subtree(s, 1)
    ensures WalksEnd(s, 1)
    ensures forall r {:trigger AwayAfterKill(s, 1, r)} :: AwayAfterKill(s, 1, r) ==>
              Sound(r) && 1 in r.procs && r.procs[1].state == WaitChild(2) && 2 in r.procs && Awaited(r.procs, 2)
  {
    hide Sound, Subtree, WalksEnd, AwayAfterKill, Tree, Homed;
    s := ParentWaits();
    NobodySleeps(s, 1);
    SecondBelow(s);
    forall r | AwayAfterKill(s, 1, r)
      ensures Sound(r) && 1 in r.procs && r.procs[1].state == WaitChild(2) && 2 in r.procs && Awaited(r.procs, 2)
    {
      ParentWaitsOn(s, r);
    }
  }

  lemma SecondBelow(s: Sys)
    requires s.procs.Keys == {IDLE, 1, 2, 3} && s.procs[3].parent == 1
    requires s.depth == map[IDLE := 0, 1 := 1, 2 := 2, 3 := 2]
    ensures 3 in Subtree(s, 1) - {1}
  {
    var par := Parents(s.procs);
    assert par[3] == 1 && Ancestor(par, s.depth, 1, 1) && Ancestor(par, s.depth, 3, 1);
  }

  lemma ParentWaitsOn(s: Sys, s': Sys)
    requires Sound(s) && s.active == 3 && s.procs.Keys == {IDLE, 1, 2, 3}
    requires s.procs[1] == Proc(IDLE, [3, 2], 2, WaitChild(2))
    requires s.procs[2] == Newborn(1, 1) && s.procs[3] == Newborn(1, 1) && s.procs[IDLE].state == Sched(Nothing)
    requires 3 in Subtree(s, 1) - {1} && s.depth == map[IDLE := 0, 1 := 1, 2 := 2, 3 := 2] && AwayAfterKill(s, 1, s')
    ensures Sound(s') && 1 in s'.procs && s'.procs[1].state == WaitChild(2) && 2 in s'.procs && Awaited(s'.procs, 2)
  {
    hide Homed, Queued, SleepSorted, SwitchedTo, SwitchedAway;
    NoneDyingSound(s);
    LeafBelow(s.procs, s.depth, 3);
    SelfBelow(s, 1);
    OnlyFirst(s);
    AwaySound(s, 1, s');
    assert ParentTold(s, 1) == s;
    var r :| SwitchedAway(s, 1, r) && s' == AsStored(r);
    DyingAre(s, 1, r, 1);
    FirstMissed(s, r);
  }

  /** Only the target is between the target and the active one. */
  lemma OnlyFirst(s: Sys)
    requires s.active == 3 && s.procs.Keys == {IDLE, 1, 2, 3} && s.procs[1].state.WaitChild?
    requires Tree(s.procs, s.depth) && s.depth == map[IDLE := 0, 1 := 1, 2 := 2, 3 := 2]
    ensures PathWaits(s, 1)
  {
    RootOnly(s, 1);
    NotBelow(s);
  }

  lemma FirstMissed(s: Sys, r: Sys)
    requires SwitchedAway(s, 1, r) && s.active == 3 && s.procs.Keys == {IDLE, 1, 2, 3} && s.procs[1].children == [3, 2]
    requires s.procs[3].children == []
    ensures 2 in r.procs && r.procs[2] == s.procs[2]
  {
    hide SwitchedTo, Kept;
    ChildOf(s.procs, s.depth, 1, 3);
    assert ReachedUnder(s, 3) == [];
    assert Reached(s.procs, s.depth, 3, 3) == [3];
    assert ReachedUnder(s, 1) == [3];
    assert ReachedBy(s, 1) == [1, 3];
    assert LeftAs(s, 1, r, 2);
  }

  lemma FlushUnread(s: Sys, line: seq<char>) returns (t: Sys)
    requires Sound(s) && s.cons == [] && |s.flushed| < ALL_BUFFER_CAP
    ensures var room := ALL_BUFFER_CAP - |s.flushed| - 1;
            && t == LineFlushed(s, Truncated(line, room) + ['\n']) && Sound(t) && t.cons == []
            && |t.flushed| == |s.flushed| + 1 + if |line| > room then room else |line|
  {
    var text := Truncated(line, ALL_BUFFER_CAP - |s.flushed| - 1) + ['\n'];
    t := LineFlushed(s, text);
    FlushSound(s, text, NOBODY);
    NobodyOnly(t);
  }

  /** Two lines that fit in the line buffer and that nobody reads fill the console's buffer; the next flush would
      leave it. */
  lemma FullBuffer() returns (s: Sys)
    ensures Sound(s) && |s.flushed| == ALL_BUFFER_CAP
  {
    var line := Repeat('x', LINE_BUFFER_CAP);
    s := FlushUnread(JustIdle(), line);
    s := FlushUnread(s, line);
  }
}
