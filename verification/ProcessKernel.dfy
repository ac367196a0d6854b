/** The process kernel: scheduler, process tree, message queues, console readers and sleepers, one kernel entry at a
    time. */
module ProcessKernel {
  import opened Integers
  import opened Lists
  import opened IdPools
  import opened Processes
  import opened ProcessTree
  import opened SleepWalks
  import opened ProcessOrder
  import opened MessageQueues
  import opened ProcessState
  import opened ProcessSteps
  import opened ProcessLife
  import opened ProcessDeath
  import opened ProcessSwitch
  import opened ProcessAway
  import opened ProcessQueues
  import opened ProcessSteady

  const PROCESS_POOL_CAP := 1024
  const QUEUE_POOL_CAP := 256
  const LINE_BUFFER_CAP := 1024

  /** What a kernel call gives its caller; Blocked when it has not come back yet, Hung when it never ends. */
  datatype Outcome = Done | Failed | Blocked | Retry | Hung | Reaped(pid: int, code: int) | Received(message: int)

  /** How a kill goes on: it is finished, it has switched away for good, or a walk over the sleepers never ends. */
  datatype Fate = Finished | Switched | Hangs

  class Kernel {
    const pids: IdPool
    const qids: IdPool
    var procs: Procs
    var rings: seq<seq<int>>
    var queues: map<int, Queue>
    var cons: seq<int>
    var sleepers: seq<int>
    var active: int
    // the console's flushed characters, and whether it will wake readers
    var flushed: seq<char>
    var armed: bool
    ghost var depth: Depths
    ghost var sent: map<int, seq<int>>
    ghost var got: map<int, seq<int>>

    ghost function S(): Sys
      reads this
    {
      Sys(procs, rings, queues, cons, sleepers, active, flushed, armed, depth, sent, got)
    }

    /** The identifiers in use are those of these processes and queues. */
    ghost predicate PoolsFor(ps: set<int>, qs: set<int>)
      reads pids, pids.slots, qids, qids.slots
    {
      && pids != qids && pids.slots != qids.slots && pids.Valid() && qids.Valid()
      && pids.slots.Length == PROCESS_POOL_CAP && qids.slots.Length == QUEUE_POOL_CAP
      && pids.Used() == ps && qids.Used() == qs
    }

    ghost predicate Pools()
      reads this, pids, pids.slots, qids, qids.slots
    {
      PoolsFor(procs.Keys, queues.Keys)
    }

    ghost predicate Valid()
      reads this, pids, pids.slots, qids, qids.slots
    {
      Pools() && Sound(S())
    }

    /** The same without the demand that the active process is the most urgent ready one. */
    ghost predicate Able()
      reads this, pids, pids.slots, qids, qids.slots
    {
      Pools() && Steady(S()) && ActiveReady(S())
    }

    /** The active process is in user code, not in the middle of a kernel call. */
    predicate Running()
      reads this
    {
      active in procs && procs[active].state == Sched(Nothing)
    }

    /** process_idle: the first process. */
    constructor ()
      ensures Valid() && Running() && active == IDLE && procs.Keys == {IDLE} && queues == map[]
      ensures fresh(pids) && fresh(pids.slots) && fresh(qids) && fresh(qids.slots)
    {
      var processes := new IdPool(PROCESS_POOL_CAP);
      var id := processes.Alloc();
      pids := processes;
      qids := new IdPool(QUEUE_POOL_CAP);
      procs := map[IDLE := Proc(NOBODY, [], 0, Sched(Nothing))];
      rings := seq(MAX_PRIORITY, i => if i == 0 then [IDLE] else []);
      queues, cons, sleepers, active, flushed, armed := map[], [], [], IDLE, "", false;
      depth, sent, got := map[IDLE := 0], map[], map[];
      new;
      FirstSound(S());
    }

    // ----- scheduler -----

    method RingRemove(p: int) returns (next: int)
      requires Homed(S()) && p in procs && procs[p].state.Sched?
      modifies this`rings
      ensures HasHome(old(S()), p) && S() == Leave(old(S()), p)
      ensures 0 <= procs[p].priority < |old(rings)| && p in old(rings)[procs[p].priority]
      ensures next == NextOf(old(rings)[procs[p].priority], p)
    {
      InItsRing(S(), p);
      var k := procs[p].priority;
      next := NextOf(rings[k], p);
      rings := rings[k := Remove(rings[k], p)];
    }

    method RingInsert(p: int, pc: Proc)
      requires CanEnter(S(), pc) && pc.state.Sched?
      modifies this`procs, this`rings
      ensures S() == Enter(old(S()), p, pc)
    {
      EnterRing(S(), p, pc);
      procs := procs[p := pc];
      rings := rings[pc.priority := [p] + rings[pc.priority]];
    }

    /** process_sched_ring_find. */
    method RingFind(maxPriority: nat) returns (p: int)
      requires maxPriority <= |rings|
      ensures p == HighestBelow(rings, maxPriority)
    {
      var priority := maxPriority - 1;
      while priority >= 0
        invariant -1 <= priority < maxPriority
        invariant HighestBelow(rings, maxPriority) == HighestBelow(rings, priority + 1)
      {
        if rings[priority] != [] {
          return rings[priority][0];
        }
        priority := priority - 1;
      }
      return NOBODY;
    }

    /** process_sched_advance; it panics when there is no successor. */
    method Advance(nextProcess: int)
      requires Homed(S()) && active in procs && Successor(S(), nextProcess) != NOBODY
      modifies this`active
      ensures S() == old(S()).(active := Successor(old(S()), nextProcess))
    {
      var next := nextProcess;
      assert HasHome(S(), active);
      if next == NOBODY && procs[active].state.Sched? {
        InItsRing(S(), active);
        next := After(rings[procs[active].priority], active);
      } else if next == NOBODY {
        next := RingFind(procs[active].priority);
      }
      active := next;
    }

    /** The timer: the next process of the ring of the active one runs. */
    method Tick()
      requires Able()
      modifies this`active
      ensures Able() && GoesOn(old(S()), S())
      ensures Homed(old(S())) && S() == old(S()).(active := Successor(old(S()), NOBODY))
    {
      TickGoesOn(S());
      Advance(NOBODY);
    }

    /** A waiting process enters the list of its state. */
    method EnterList(p: int, pc: Proc)
      requires CanEnter(S(), pc) && !pc.state.Sched?
      modifies this`procs, this`queues, this`cons, this`sleepers
      ensures S() == Enter(old(S()), p, pc)
    {
      procs := procs[p := pc];
      match pc.state
      case WaitQueue(q, _, _) => queues := queues[q := queues[q].(waiters := [p] + queues[q].waiters)];
      case WaitCons => cons := [p] + cons;
      case WaitTime(_) => sleepers := [p] + sleepers;
      case _ =>
    }

    /** The active process leaves its ring and waits; another one runs. */
    method BlockActive(state: State)
      requires Sound(S()) && active != IDLE && !state.Sched? && !state.Dying? && !state.Zombie?
      requires Fits(S(), procs[active], procs[active].(state := state))
      modifies this`procs, this`rings, this`queues, this`cons, this`sleepers, this`active
      ensures Sound(S()) && HasBlocked(old(S()), state, S())
      ensures procs.Keys == old(procs).Keys && queues.Keys == old(queues).Keys
    {
      ghost var s, pc := S(), procs[active].(state := state);
      hide Sound, Enter, Leave, Successor;
      BlockSound(s, pc);
      BlockSteps(s, pc);
      var next := RingRemove(active);
      EnterList(active, procs[active].(state := state));
      Advance(next);
      MoveFields(s, s.active, pc);
    }

    // ----- death -----

    /** The record of a zombie goes, and its entry in the list of its parent. */
    method DropRecord(c: int)
      requires Kept(S()) && c in procs && procs[c].state.Zombie? && Unclaimed(procs, c) && c != IDLE
      modifies this`procs
      ensures Kept(S()) && S() == Freed(old(S()), c) && S() == Prune(old(S()), {c})
      ensures procs.Keys == old(procs).Keys - {c}
    {
      hide Kept, Prune, Unclaimed;
      FreedKept(S(), c);
      var a := procs[c].parent;
      procs := procs - {c};
      if a in procs {
        procs := procs[a := procs[a].(children := Remove(procs[a].children, c))];
      }
    }

    /** process_free: a zombie disappears and its PID can be used again. */
    method FreeProc(c: int)
      requires Pools() && Kept(S()) && c in procs && procs[c].state.Zombie? && Unclaimed(procs, c) && c != IDLE
      modifies this`procs, pids, pids.slots
      ensures Pools() && Kept(S()) && S() == Freed(old(S()), c) && S() == Prune(old(S()), {c})
    {
      hide Kept, Prune, Unclaimed, Freed;
      DropRecord(c);
      pids.Free(c);
    }

    /** process_queue_remove_process. */
    method QueueRemove(p: int)
      requires Homed(S()) && p in procs && procs[p].state.WaitQueue?
      modifies this`queues
      ensures HasHome(old(S()), p) && S() == Leave(old(S()), p) && queues.Keys == old(queues).Keys
    {
      assert HasHome(S(), p);
      var q := procs[p].state.queue;
      queues := queues[q := queues[q].(waiters := Remove(queues[q].waiters, p))];
    }

    /** process_cons_read_kill_process. */
    method ConsRemove(p: int)
      requires Homed(S()) && p in procs && procs[p].state.WaitCons?
      modifies this`cons
      ensures HasHome(old(S()), p) && S() == Leave(old(S()), p)
    {
      assert HasHome(S(), p);
      cons := Remove(cons, p);
    }

    /** process_time_queue_remove; ends tells whether its walk does. */
    method TimeQueueRemove(p: int) returns (ends: bool)
      requires Homed(S()) && p in procs && procs[p].state.WaitTime?
      modifies this`sleepers
      ensures ends <==> RemovalEnds(old(sleepers), p)
      ensures ends ==> HasHome(old(S()), p) && S() == Leave(old(S()), p)
    {
      RemovalEndsAtHead(sleepers, p);
      assert HasHome(S(), p);
      ends := sleepers == [];
      if sleepers != [] && sleepers[0] == p {
        sleepers := sleepers[1..];
        ends := true;
      }
    }

    /** A process that is being killed leaves the list of its state, if the walk for that ends. */
    method LeaveAny(p: int) returns (next: int, ends: bool)
      requires Kept(S()) && p in procs && !procs[p].state.Dying? && !procs[p].state.Zombie?
      modifies this`procs, this`rings, this`queues, this`cons, this`sleepers
      ensures ends <==> (old(procs)[p].state.WaitTime? ==> RemovalEnds(old(sleepers), p))
      ensures ends ==> Kept(S()) && HasHome(old(S()), p) && S() == Detach(old(S()), p)
      ensures ends ==> queues.Keys == old(queues).Keys && procs.Keys == old(procs).Keys
      ensures old(procs)[p].state.Sched? ==>
        0 <= old(procs)[p].priority < |old(rings)| && p in old(rings)[old(procs)[p].priority]
        && next == NextOf(old(rings)[old(procs)[p].priority], p)
      ensures !old(procs)[p].state.Sched? ==> next == NOBODY
    {
      ghost var s := S();
      hide Kept, Detach, Homed, Leave, NextOf, RemovalEnds;
      DetachFacts(s, p);
      DetachIs(s, p);
      KeptHomed(s);
      next, ends := NOBODY, true;
      if procs[p].state.Sched? {
        next := RingRemove(p);
      } else if procs[p].state.WaitTime? {
        ends := TimeQueueRemove(p);
        if !ends {
          return;
        }
      } else if procs[p].state.WaitQueue? {
        QueueRemove(p);
      } else if procs[p].state.WaitCons? {
        ConsRemove(p);
      }
      assert S() == Leave(s, p);
      procs := procs[p := Detached(procs[p])];
    }

    /** process_internal_kill without waking the parent: the children and theirs die and disappear, the process
        becomes a zombie. It never ends exactly when a sleeper that it reaches is not at the head of the list by then;
        else, when the active process is a descendant, the recursion switches away from it and never comes back. */
    method KillTree(p: int, code: int) returns (next: int, fate: Fate)
      requires Pools() && Kept(S()) && p in procs && p != IDLE && !procs[p].state.Zombie? && Killable(S(), p)
      modifies this, pids, pids.slots
      ensures fate == Hangs <==> !old(WalksEnd(S(), p))
      ensures fate == Switched ==>
          Pools() && SwitchedAway(old(S()), p, S()) && old(active) in old(Subtree(S(), p)) - {p}
      ensures fate == Finished ==> old(active) !in old(Subtree(S(), p)) - {p}
      ensures fate == Finished ==> Pools() && Kept(S()) && HasHome(old(S()), p) && S() == Killed(old(S()), p, code)
      ensures fate == Finished && old(procs)[p].state.Sched? ==>
        0 <= old(procs)[p].priority < |old(rings)| && p in old(rings)[old(procs)[p].priority]
        && next == NextOf(old(rings)[old(procs)[p].priority], p)
      ensures fate == Finished && !old(procs)[p].state.Sched? ==> next == NOBODY
      decreases Subtree(S(), p), 1
    {
      hide Kept, Prune, Killed, Detach, Killable, InKill, OnWay, WalksEnd, ChildWalksEnd, SwitchedAway, Subtree,
          Unclaimed, PartOf;
      ghost var s, k: set<int> := S(), {};
      KillableAt(s, p);
      KillBegins(s, p);
      OnWayBegins(s, p);
      RemovalEndsAtHead(sleepers, p);
      var ends;
      next, ends := LeaveAny(p);
      if !ends {
        fate := Hangs;
        return;
      }
      while procs[p].children != []
        invariant Pools() && Kept(S()) && InKill(s, p, k, S()) && p in procs && OnWay(s, p, k, S())
        decreases procs.Keys
      {
        ghost var c, d := KillNext(s, p, k, S());
        fate, d := KillChild(p, s, k);
        if fate != Finished {
          return;
        }
        k := k + d;
      }
      AllChildrenDead(s, p, k, S(), code);
      procs := procs[p := procs[p].(state := Zombie(code), children := [])];
      fate := Finished;
    }

    /** The first child of a process that is being killed dies, unless it is a zombie already, and is freed. */
    method KillChild(p: int, ghost s: Sys, ghost k: set<int>) returns (fate: Fate, ghost d: set<int>)
      requires Pools() && Kept(S()) && InKill(s, p, k, S()) && p in procs && procs[p].children != []
      requires OnWay(s, p, k, S())
      modifies this, pids, pids.slots
      ensures fate == Hangs ==> !WalksEnd(s, p)
      ensures fate == Switched ==>
          Pools() && WalksEnd(s, p) && SwitchedAway(s, p, S()) && s.active in Subtree(s, p) - {p}
      ensures fate == Finished ==>
          Pools() && Kept(S()) && InKill(s, p, k + d, S()) && p in procs && OnWay(s, p, k + d, S())
      ensures fate == Finished ==> procs.Keys < old(procs).Keys
      decreases Subtree(S(), procs[p].children[0]), 3
    {
      hide Kept, Prune, Killed, Detach, Killable, InKill, OnWay, WalksEnd, ChildWalksEnd, SwitchedAway, Subtree,
          Unclaimed, PartOf;
      ghost var t := S();
      ghost var c';
      c', d := KillNext(s, p, k, t);
      var c := procs[p].children[0];
      if !procs[c].state.Zombie? {
        fate := KillBelow(p, c, s, k);
        if fate != Finished {
          return;
        }
      } else {
        ZombieWalks(t, c);
      }
      KillStep(s, p, k, t, c, d, S());
      FreeProc(c);
      OnWayStep(s, p, k, t, c, d, S());
      fate := Finished;
    }

    /** A child that is not a zombie yet. When it is the active process its death switches away. */
    method KillBelow(p: int, c: int, ghost s: Sys, ghost k: set<int>) returns (fate: Fate)
      requires Pools() && Kept(S()) && InKill(s, p, k, S()) && p in procs && procs[p].children != []
      requires OnWay(s, p, k, S())
      requires c == procs[p].children[0] && c in procs && c != IDLE && !procs[c].state.Zombie? && Killable(S(), c)
      modifies this, pids, pids.slots
      ensures fate == Hangs ==> !WalksEnd(s, p)
      ensures fate == Switched ==>
          Pools() && WalksEnd(s, p) && SwitchedAway(s, p, S()) && s.active in Subtree(s, p) - {p}
      ensures fate == Finished ==> Pools() && Kept(S()) && HasHome(old(S()), c) && S() == Killed(old(S()), c, 0)
      ensures fate == Finished ==> old(WalksEnd(S(), c)) && s.active !in old(Subtree(S(), c))
      decreases Subtree(S(), c), 2
    {
      hide Kept, Prune, Killed, Detach, Killable, InKill, OnWay, WalksEnd, ChildWalksEnd, SwitchedAway, Subtree,
          Unclaimed, PartOf;
      ghost var t := S();
      BelowBegins(s, p, k, t, c);
      KilledKept(t, c, 0);
      KillableAt(t, c);
      var next;
      next, fate := KillTree(c, 0);
      if fate == Hangs {
        return;
      }
      if fate == Switched {
        SwitchUp(s, p, k, t, c, S());
      } else if c == active {
        SwitchHere(t);
        Advance(next);
        SwitchUp(s, p, k, t, c, S());
        fate := Switched;
      }
    }

    /** A parent that waits for a process is told that it died. */
    method TellParent(p: int) returns (nextProcess: int)
      requires Kept(S()) && p in procs
      modifies this`procs, this`rings
      ensures Kept(S()) && S() == ParentTold(old(S()), p) && procs.Keys == old(procs).Keys
      ensures var a := old(procs)[p].parent;
              nextProcess == if Awaited(old(procs), p) && old(procs)[a].priority > old(procs)[p].priority then a
                  else NOBODY
    {
      ghost var s := S();
      ToldKept(s, p);
      nextProcess := NOBODY;
      var parent := procs[p].parent;
      if parent in procs && procs[parent].state.WaitChild? {
        if procs[parent].state.pid < 0 || procs[parent].state.pid == p {
          assert HasHome(s, parent);
          RingInsert(parent, procs[parent].(state := Sched(ReapChild(p))));
          if procs[parent].priority > procs[p].priority {
            nextProcess := parent;
          }
        }
      }
    }

    /** process_internal_kill up to the switch; when the process is ready, the successor it picks. */
    method InternalKill(p: int, code: int) returns (nextProcess: int, fate: Fate)
      requires Able() && p in procs && p != IDLE && !procs[p].state.Zombie?
      requires active in Subtree(S(), p) ==> Manned(S())
      modifies this, pids, pids.slots
      ensures fate == Hangs <==> !old(WalksEnd(S(), p))
      ensures fate == Switched ==> old(active) in old(Subtree(S(), p)) - {p} && Pools()
      ensures fate == Switched ==> Homed(old(S())) && SwitchedAway(ParentTold(old(S()), p), p, S())
      ensures fate == Finished ==> old(active) !in old(Subtree(S(), p)) - {p}
      ensures fate == Finished ==> Pools() && AfterKill(old(S()), p, code, S())
      ensures fate == Finished && old(procs)[p].state.Sched? ==> nextProcess == ExitNext(old(S()), p)
    {
      ghost var s := S();
      NobodyOnly(s);
      ToldKept(s, p);
      ToldKillable(s, p);
      ToldWalks(s, p);
      ToldActive(s, p);
      hide Sound, Kept, Killed, ParentTold, Killable, Subtree, HasHome, WalksEnd, SwitchedAway;
      nextProcess := TellParent(p);
      var nextRing;
      nextRing, fate := KillTree(p, code);
      if nextProcess == NOBODY {
        nextProcess := nextRing;
      }
    }

    /** process_internal_exit: the active process dies and another one runs, unless a walk over the sleepers never
        ends. It panics for idle. */
    method InternalExit(code: int) returns (ends: bool)
      requires Valid() && active != IDLE
      modifies this, pids, pids.slots
      ensures ends <==> old(WalksEnd(S(), active))
      ensures ends ==> Pools() && S() == Exited(old(S()), code)
    {
      ghost var s := S();
      SoundSteady(s);
      IdleLast(s);
      ToldActive(s, active);
      StrictExcludes(s, active);
      hide Sound, Kept, Homed, AfterKill, Exited, Successor, Killable, Subtree, ExitNext, WalksEnd, SwitchedAway,
          ParentTold;
      var nextProcess, fate := InternalKill(active, code);
      ends := fate == Finished;
      if ends {
        ExitSteps(s, code, S());
        Advance(nextProcess);
      }
    }

    /** process_exit. It ends exactly when the sleepers under the active process are the first ones in the list, in
        the order in which they are killed. */
    method Exit(code: int) returns (ends: bool)
      requires Valid() && active != IDLE
      modifies this, pids, pids.slots
      ensures ends <==> old(WalksEnd(S(), active))
      ensures ends ==> Pools() && S() == Exited(old(S()), code) && (Sound(S()) <==> ExitSafe(old(S())))
    {
      ghost var s := S();
      ExitSound(s, code);
      hide *;
      ends := InternalExit(code);
    }

    /** process_kill of another process; killing itself is Exit. The call hangs exactly when a walk over the sleepers
        does not end. Else it comes back exactly when the active process is not a descendant of the target, and then
        the system is sound exactly when no more urgent parent was waiting. When it switches away the half-dead
        processes keep their stored states, and the system is sound exactly when they all waited for a child, nobody
        waited for the target, and the process that takes over does not die with the active one. */
    method Kill(pid: int) returns (result: int, fate: Fate)
      requires Able() && pid != active && (active in Subtree(S(), pid) ==> Manned(S()))
      modifies this, pids, pids.slots
      ensures pid == IDLE || pid !in old(procs) || old(procs)[pid].state.Zombie? ==>
        result == -1 && fate == Finished && Able() && S() == old(S())
      ensures pid != IDLE && pid in old(procs) && !old(procs)[pid].state.Zombie? ==>
        && result == 0 && (fate == Hangs <==> !old(WalksEnd(S(), pid)))
        && (fate == Switched <==> old(WalksEnd(S(), pid)) && old(active) in old(Subtree(S(), pid)))
        && (fate == Switched ==> Pools() && AwayAfterKill(old(S()), pid, S()))
        && (fate == Finished ==> Able() && AfterKill(old(S()), pid, 0, S()))
        && (fate == Switched && old(Sound(S())) ==> (Sound(S()) <==> AwaySafe(old(S()), pid)))
        && (fate == Finished && old(Sound(S())) ==> (Sound(S()) <==> KillSafe(old(S()), pid)))
    {
      if pid == IDLE {
        return -1, Finished;
      }
      if pid !in procs || procs[pid].state.Zombie? {
        return -1, Finished;
      }
      hide *;
      fate := KillAlive(pid);
      result := 0;
    }

    method KillAlive(p: int) returns (fate: Fate)
      requires Able() && p != active && p != IDLE && p in procs && !procs[p].state.Zombie?
      requires active in Subtree(S(), p) ==> Manned(S())
      modifies this, pids, pids.slots
      ensures Kept(old(S())) && old(active) in old(procs)
      ensures fate == Hangs <==> !old(WalksEnd(S(), p))
      ensures fate == Switched <==> old(WalksEnd(S(), p)) && old(active) in old(Subtree(S(), p))
      ensures fate == Switched ==> Pools() && AwayAfterKill(old(S()), p, S())
      ensures fate == Switched && old(Sound(S())) ==> (Sound(S()) <==> AwaySafe(old(S()), p))
      ensures fate == Finished ==> Able() && AfterKill(old(S()), p, 0, S())
      ensures fate == Finished && old(Sound(S())) ==> (Sound(S()) <==> KillSafe(old(S()), p))
    {
      hide Sound, Kept, Homed, AfterKill, AwayAfterKill, Subtree, KillSafe, AwaySafe, WalksEnd, SwitchedAway,
          ParentTold;
      ghost var s := S();
      var _, f := InternalKill(p, 0);
      fate := f;
      if fate == Finished {
        NotAboveActive(s, p);
        KillGoesOn(s, p, S());
        if Sound(s) {
          KillEffect(s, p, S());
        }
      } else if fate == Switched {
        AwayIs(s, p, S());
        NotAboveActive(s, p);
        if Sound(s) {
          AwayEffect(s, p, S());
        }
        procs := StoredProcs(procs);
      }
    }

    /** Switch to a process that was made ready if it outranks the active one. */
    method SwitchIfUrgent(p: int)
      requires Kept(S()) && active in procs && (p != NOBODY ==> p in procs)
      modifies this`active
      ensures S() == Urgent(old(S()), p)
    {
      KeptHomed(S());
      NobodyIsNone(S());
      if p != NOBODY {
        NextIsSuccessor(S(), p);
        if procs[p].priority > procs[active].priority {
          Advance(p);
        }
      }
    }

    // ----- birth, waiting, priorities -----

    /** process_start; memory tells whether the allocations succeed. The new process runs at once if it outranks its
        parent. */
    method Start(priority: int, memory: bool) returns (pid: int)
      requires Able() && Running()
      modifies this, pids, pids.slots
      ensures Able() && GoesOn(old(S()), S())
      ensures pid == -1 <==> priority < 0 || priority >= MAX_PRIORITY || !memory || AllUsed(old(procs))
      ensures pid == -1 ==> S() == old(S())
      ensures pid != -1 ==>
          pid !in old(procs) && 0 < pid < PROCESS_POOL_CAP && 0 <= priority < MAX_PRIORITY <= |old(rings)|
      ensures pid != -1 ==> old(active) in old(procs) && old(active) in old(depth)
      ensures pid != -1 ==> S() == Urgent(Born(old(S()), pid, priority), pid)
    {
      ghost var s := S();
      hide Sound, Born, Urgent, Kept, Steady, ActiveReady, GoesOn, Ready, AllUsed, PoolsFor, Settled;
      StartKnown(s);
      if priority < 0 || priority >= MAX_PRIORITY {
        return -1;
      }
      if !memory {
        return -1;
      }
      pid := NewPid();
      if pid == -1 {
        return;
      }
      StartGoesOn(s, pid, priority);
      BornKept(s, pid, priority);
      BornKeys(s, pid, priority);
      AddProcess(pid, priority);
      SwitchIfUrgent(pid);
      GoesOnIs(s, Urgent(Born(s, pid, priority), pid));
      BornStays(Born(s, pid, priority), pid);
    }

    /** A PID for a new process, -1 when all are in use. */
    method NewPid() returns (pid: int)
      requires Pools() && IDLE in procs
      modifies pids, pids.slots
      ensures pid == -1 <==> AllUsed(procs)
      ensures pid == -1 ==> Pools()
      ensures pid != -1 ==> PoolsFor(procs.Keys + {pid}, queues.Keys) && 0 < pid < PROCESS_POOL_CAP && pid !in procs
    {
      var empty := pids.Empty();
      if empty {
        assert forall p :: 0 <= p < PROCESS_POOL_CAP ==> p in pids.Used() && p in procs;
        return -1;
      }
      pid := pids.Alloc();
      assert 0 <= pid < PROCESS_POOL_CAP && pid !in procs;
    }

    /** The record, the ring and the tree entry of a new process. */
    method AddProcess(pid: int, priority: int)
      requires Homed(S()) && active in procs && active in depth && pid !in procs
      requires 0 <= priority < MAX_PRIORITY <= |rings|
      modifies this`procs, this`rings, this`depth
      ensures S() == Born(old(S()), pid, priority)
    {
      ghost var s := S();
      assert CanEnter(s, Newborn(active, priority));
      RingInsert(pid, Newborn(active, priority));
      procs := procs[active := procs[active].(children := [pid] + procs[active].children)];
      depth := depth[pid := depth[active] + 1];
    }

    /** The walk over the children in process_wait. */
    method FindChild(pid: int) returns (child: int)
      requires active in procs
      ensures child == FirstChild(procs, procs[active].children, pid)
    {
      var l := procs[active].children;
      var i := 0;
      while i < |l|
        invariant 0 <= i <= |l|
        invariant FirstChild(procs, l, pid) == FirstChild(procs, l[i..], pid)
      {
        if (pid < 0 && l[i] in procs && procs[l[i]].state.Zombie?) || pid == l[i] {
          return l[i];
        }
        assert l[i..][1..] == l[i + 1..];
        i := i + 1;
      }
      child := NOBODY;
    }

    /** process_wait: reap a zombie child now, or block until the awaited one dies. */
    method Wait(pid: int) returns (r: Outcome)
      requires Able() && Running()
      requires WaitBlocks(procs, active, pid) ==> Sound(S()) && active != IDLE
      modifies this, pids, pids.slots
      ensures Able() && GoesOn(old(S()), S())
      ensures var c := FirstChild(old(procs), old(procs)[old(active)].children, pid);
              if old(procs)[old(active)].children == [] || (c == NOBODY && pid >= 0) then r == Failed && S() == old(S())
              else if WaitBlocks(old(procs), old(active), pid) then
                r == Blocked && HasBlocked(old(S()), WaitChild(pid), S())
              else c in old(procs) && old(procs)[c].state.Zombie?
                   && r == Reaped(c, old(procs)[c].state.code) && S() == Freed(old(S()), c)
    {
      hide Sound, Kept, GoesOn, Freed, HasBlocked, PoolsFor, FirstChild, Fits;
      ghost var s := S();
      StartKnown(s);
      var child := FindChild(pid);
      ChildFound(s, pid);
      if procs[active].children == [] {
        return Failed;
      }
      if child == NOBODY && pid >= 0 {
        return Failed;
      }
      if child == NOBODY || !procs[child].state.Zombie? {
        BlockActive(WaitChild(pid));
        SoundGoesOn(s, S());
        r := Blocked;
      } else {
        r := Reaped(child, procs[child].state.code);
        ReapGoesOn(s, child);
        GoesOnIs(s, Freed(s, child));
        FreeProc(child);
      }
    }

    /** What a process does when it continues a kernel call in which it had blocked. */
    method Continue() returns (r: Outcome)
      requires Able() && ReapsZombie(procs, active)
      modifies this, pids, pids.slots
      ensures Able() && GoesOn(old(S()), S()) && old(active) in old(procs) && old(procs)[old(active)].state.Sched?
      ensures match old(procs)[old(active)].state.resume
              case Nothing => r == Done && S() == old(S())
              case ReapChild(c) => c in old(procs) && old(procs)[c].state.Zombie?
                                   && r == Reaped(c, old(procs)[c].state.code) && S() == Freed(Quiet(old(S())), c)
              case Handed(_, m) => r == Received(m) && S() == Quiet(old(S()))
              case Accepted => r == Done && S() == Quiet(old(S()))
              case WasReset => r == Failed && S() == Quiet(old(S()))
              case ReadAgain => r == Retry && S() == Quiet(old(S()))
    {
      ghost var s := S();
      QuietGoesOn(s);
      var resume := procs[active].state.resume;
      procs := procs[active := procs[active].(state := Sched(Nothing))];
      assert S() == Quiet(s);
      match resume {
        case Nothing =>
          assert procs == s.procs;
          r := Done;
        case ReapChild(c) =>
          ReapableChild(s, c);
          r := Reaped(c, procs[c].state.code);
          ReapGoesOn(S(), c);
          hide Sound, Freed, Quiet, Kept;
          FreeProc(c);
        case Handed(_, m) => r := Received(m);
        case Accepted => r := Done;
        case WasReset => r := Failed;
        case ReadAgain => r := Retry;
      }
    }

    /** process_sched_set_priority. */
    method SchedSetPriority(p: int, newPriority: int)
      requires Steady(S()) && ActiveReady(S()) && p in procs && procs[p].state.Sched? && 0 <= newPriority < MAX_PRIORITY
      requires newPriority != procs[p].priority
      modifies this`procs, this`rings, this`active
      ensures Kept(old(S())) && S() == Ranked(old(S()), p, newPriority)
    {
      ghost var s := S();
      StartKnown(s);
      RerankSteps(s, p, newPriority);
      RingNext(s, p);
      hide Sound, Kept, Homed, Reranked, Leave, Enter, HasHome;
      var nextProcess := RingRemove(p);
      var prevPriority := procs[p].priority;
      RingInsert(p, procs[p].(priority := newPriority));
      assert S() == Reranked(s, p, newPriority);
      if newPriority < prevPriority {
        if active == p {
          if nextProcess == NOBODY {
            nextProcess := RingFind(prevPriority);
            if nextProcess == p {
              return;
            }
          }
        } else {
          return;
        }
      } else {
        if active == p {
          return;
        } else if newPriority > procs[active].priority {
          nextProcess := p;
        } else {
          return;
        }
      }
      if nextProcess != NOBODY && nextProcess != p {
        NextIsSuccessor(S(), nextProcess);
        Advance(nextProcess);
      }
    }

    /** process_set_priority. */
    method SetPriority(pid: int, priority: int) returns (r: int)
      requires Able()
      modifies this
      ensures Able()
      ensures priority < 0 || priority >= MAX_PRIORITY || pid !in old(procs) || old(procs)[pid].state.Zombie? ==>
        r == -1 && S() == old(S())
      ensures 0 <= priority < MAX_PRIORITY && pid in old(procs) && !old(procs)[pid].state.Zombie? ==>
        && r == old(procs)[pid].priority && Kept(old(S())) && old(active) in old(procs)
        && S() == (if priority == r then old(S()) else Ranked(old(S()), pid, priority))
        && (old(Sound(S())) ==> (Sound(S()) <==> priority == r || PrioritySafe(old(S()), pid, priority)))
    {
      ghost var s := S();
      if priority < 0 || priority >= MAX_PRIORITY {
        return -1;
      }
      if pid !in procs || procs[pid].state.Zombie? {
        return -1;
      }
      r := procs[pid].priority;
      if priority == r {
        return;
      }
      SetRank(pid, priority);
    }

    method SetRank(pid: int, priority: int)
      requires Able() && 0 <= priority < MAX_PRIORITY && pid in procs && !procs[pid].state.Zombie?
      requires priority != procs[pid].priority
      modifies this
      ensures Able() && Kept(old(S())) && old(active) in old(procs) && S() == Ranked(old(S()), pid, priority)
      ensures old(Sound(S())) ==> (Sound(S()) <==> PrioritySafe(old(S()), pid, priority))
    {
      hide Sound, Kept, Ranked, PoolsFor;
      ghost var s := S();
      RankedGoesOn(s, pid, priority);
      RankedKeys(s, pid, priority);
      ghost var s' := Ranked(s, pid, priority);
      if procs[pid].state.Sched? {
        SchedSetPriority(pid, priority);
      } else if procs[pid].state.WaitQueue? {
        QueueSetPriority(pid, priority);
      } else {
        procs := procs[pid := procs[pid].(priority := priority)];
        RerankedRecord(s, pid, priority);
      }
      assert S() == s';
    }

    /** process_queue_set_priority: the process leaves the wait list and comes back in front. */
    method QueueSetPriority(p: int, newPriority: int)
      requires Kept(S()) && p in procs && procs[p].state.WaitQueue? && 0 <= newPriority < MAX_PRIORITY
      modifies this`procs, this`queues
      ensures Homed(old(S())) && S() == Reranked(old(S()), p, newPriority)
      ensures procs == old(procs)[p := old(procs)[p].(priority := newPriority)] && queues.Keys == old(queues).Keys
      ensures forall q :: q in queues ==>
          queues[q] == old(queues)[q].(waiters := if q == old(procs)[p].state.queue
              then [p] + Remove(old(queues)[q].waiters, p) else old(queues)[q].waiters)
    {
      ghost var s := S();
      KeptHomed(s);
      assert HasHome(s, p);
      var q := procs[p].state.queue;
      procs := procs[p := procs[p].(priority := newPriority)];
      queues := queues[q := queues[q].(waiters := Remove(queues[q].waiters, p))];
      queues := queues[q := queues[q].(waiters := [p] + queues[q].waiters)];
    }

    // ----- message queues -----

    /** process_queue_create; memory tells whether the allocations succeed. */
    method QueueCreate(capacity: int, memory: bool) returns (qid: int)
      requires Able()
      modifies this`queues, this`sent, this`got, qids, qids.slots
      ensures Able() && GoesOn(old(S()), S())
      ensures qid == -1 <==> capacity <= 0 || AllQueuesUsed(old(queues)) || 4 * capacity >= WORD || !memory
      ensures qid == -1 ==> S() == old(S())
      ensures qid != -1 ==> qid !in old(queues) && 0 <= qid < QUEUE_POOL_CAP && capacity > 0
      ensures qid != -1 ==> exists qu: Queue :: FreshQueue(qu, capacity) && S() == SetQueue(old(S()), qid, qu, [], [])
    {
      ghost var s := S();
      StartKnown(s);
      if capacity <= 0 || 4 * capacity >= WORD || !memory {
        return -1;
      }
      var queue := Queue(capacity, seq(capacity, i => 0), 0, 0, 0, []);
      hide Sound, SetQueue, Kept, Steady, ActiveReady, GoesOn, FreshQueue;
      qid := NewQid();
      if qid == -1 {
        return;
      }
      CreatedFresh(queue, capacity);
      CreateGoesOn(s, qid, queue);
      GoesOnIs(s, SetQueue(s, qid, queue, [], []));
      AddQueue(qid, queue);
    }

    method AddQueue(qid: int, queue: Queue)
      modifies this`queues, this`sent, this`got
      ensures S() == SetQueue(old(S()), qid, queue, [], []) && queues.Keys == old(queues).Keys + {qid}
    {
      queues, sent, got := queues[qid := queue], sent[qid := []], got[qid := []];
    }

    method NewQid() returns (qid: int)
      requires Pools()
      modifies qids, qids.slots
      ensures qid == -1 <==> AllQueuesUsed(queues)
      ensures qid == -1 ==> Pools()
      ensures qid != -1 ==> PoolsFor(procs.Keys, queues.Keys + {qid}) && 0 <= qid < QUEUE_POOL_CAP && qid !in queues
    {
      var empty := qids.Empty();
      if empty {
        assert forall q :: 0 <= q < QUEUE_POOL_CAP ==> q in qids.Used();
        assert qids.Used() == queues.Keys;
        assert forall q :: 0 <= q < QUEUE_POOL_CAP ==> q in queues;
        return -1;
      }
      qid := qids.Alloc();
      assert 0 <= qid < QUEUE_POOL_CAP && qid !in queues;
    }

    /** The loop of process_queue_resume_reset: all waiters become ready; the most urgent one is found. */
    method WakeWaiters(q: int) returns (top: int)
      requires Kept(S()) && q in queues
      modifies this`procs, this`rings, this`queues
      ensures S() == WakeEach(old(S()), old(queues)[q].waiters, WasReset)
      ensures TopOf(old(procs), old(queues)[q].waiters, top)
    {
      hide Wake, Kept, Homed, WakeEach, TopOf, SameRanks;
      ghost var s, l, i := S(), queues[q].waiters, 0;
      RanksBegin(s, l);
      top := NOBODY;
      while queues[q].waiters != []
        invariant Kept(S()) && q in queues && 0 <= i <= |l| && queues[q].waiters == l[i..] && SameRanks(s.procs, procs)
        invariant WakeEach(S(), l[i..], WasReset) == WakeEach(s, l, WasReset) && TopOf(s.procs, l[..i], top)
        decreases |l| - i
      {
        ghost var t := S();
        var p := WakeWaiter(q);
        WakeUnfold(t, l[i..], WasReset);
        RanksNext(s, t, S(), l, i, top);
        if top == NOBODY || procs[top].priority < procs[p].priority {
          top := p;
        }
        i := i + 1;
      }
      assert l[..i] == l && l[i..] == [];
      WakeUnfold(S(), [], WasReset);
    }

    /** The head of a wait list becomes ready. */
    method WakeWaiter(q: int) returns (p: int)
      requires Kept(S()) && q in queues && queues[q].waiters != []
      modifies this`procs, this`rings, this`queues
      ensures p == old(queues)[q].waiters[0] && p in old(procs) && S() == Wake(old(S()), p, WasReset) && Kept(S())
      ensures q in queues && queues[q].waiters == old(queues)[q].waiters[1..] && OnlyWoken(old(S()), S(), [p], WasReset)
    {
      WakeHead(S(), InQueue(q), WasReset);
      hide Wake, Kept, Enter;
      p := queues[q].waiters[0];
      queues := queues[q := queues[q].(waiters := queues[q].waiters[1..])];
      RingInsert(p, procs[p].(state := Sched(WasReset)));
    }

    /** process_queue_reset. */
    method QueueReset(qid: int) returns (r: Outcome)
      requires Able() && Running()
      modifies this`procs, this`rings, this`queues, this`sent, this`got, this`active
      ensures Able() && GoesOn(old(S()), S())
      ensures qid !in old(queues) ==> r == Failed && S() == old(S())
      ensures qid in old(queues) ==> r == Done && WasResetTo(old(S()), qid, Reset(old(S()), qid), S())
    {
      hide Sound, Kept, Steady, ActiveReady, GoesOn, WasResetTo, Reset, PoolsFor;
      StartKnown(S());
      if qid !in queues {
        return Failed;
      }
      ResetKnown(qid);
      r := Done;
    }

    method ResetKnown(q: int)
      requires Steady(S()) && ActiveReady(S()) && q in queues
      modifies this`procs, this`rings, this`queues, this`sent, this`got, this`active
      ensures Steady(S()) && ActiveReady(S()) && GoesOn(old(S()), S())
      ensures WasResetTo(old(S()), q, Reset(old(S()), q), S())
      ensures procs.Keys == old(procs).Keys && queues.Keys == old(queues).Keys
    {
      hide Sound, Kept, GoesOn, WakeEach, OnlyWoken, TopOf, Urgent, PoolsFor, EmptyQueue, QueueOk, WasResetTo;
      ghost var s := S();
      WaitersGone(s, q);
      ResetKept(s, q);
      var top := WakeWaiters(q);
      TopIn(s, q, top);
      queues := queues[q := EmptyQueue(queues[q])];
      sent, got := sent[q := []], got[q := []];
      assert S() == Reset(s, q);
      hide Reset;
      assert procs.Keys == s.procs.Keys && queues.Keys == s.queues.Keys;
      ResetGoesOn(s, q, top);
      GoesOnIs(s, Urgent(Reset(s, q), top));
      SwitchIfUrgent(top);
      ResetIs(s, q, Reset(s, q), S(), top);
    }

    /** process_queue_delete. */
    method QueueDelete(qid: int) returns (r: Outcome)
      requires Able() && Running()
      modifies this`procs, this`rings, this`queues, this`active, qids, qids.slots
      ensures Able() && GoesOn(old(S()), S())
      ensures qid !in old(queues) ==> r == Failed && S() == old(S())
      ensures qid in old(queues) ==> r == Done && WasResetTo(old(S()), qid, Deleted(old(S()), qid), S())
    {
      hide Sound, Kept, Steady, ActiveReady, GoesOn, WasResetTo, Deleted;
      StartKnown(S());
      if qid !in queues {
        return Failed;
      }
      DeleteKnown(qid);
      qids.Free(qid);
      r := Done;
    }

    method DeleteKnown(q: int)
      requires Steady(S()) && ActiveReady(S()) && q in queues
      modifies this`procs, this`rings, this`queues, this`active
      ensures Steady(S()) && ActiveReady(S()) && GoesOn(old(S()), S())
      ensures WasResetTo(old(S()), q, Deleted(old(S()), q), S())
      ensures procs.Keys == old(procs).Keys && queues.Keys == old(queues).Keys - {q}
    {
      hide Sound, Kept, GoesOn, WakeEach, OnlyWoken, TopOf, Urgent, QueueOk, WasResetTo;
      ghost var s := S();
      WaitersGone(s, q);
      ResetKept(s, q);
      var top := WakeWaiters(q);
      TopIn(s, q, top);
      queues := queues - {q};
      assert S() == Deleted(s, q);
      hide Deleted;
      assert procs.Keys == s.procs.Keys && queues.Keys == s.queues.Keys - {q};
      ResetGoesOn(s, q, top);
      GoesOnIs(s, Urgent(Deleted(s, q), top));
      SwitchIfUrgent(top);
      ResetIs(s, q, Deleted(s, q), S(), top);
    }

    /** process_queue_pop_next: the waiter of highest priority that waits longest leaves the list; NOBODY when none
        waits. */
    method PopNext(q: int) returns (w: int)
      requires Homed(S()) && q in queues
      modifies this`queues
      ensures w == NOBODY <==> old(queues)[q].waiters == []
      ensures w == NOBODY ==> S() == old(S())
      ensures w != NOBODY ==>
          w in old(queues)[q].waiters && w in procs && LastOfHighest(procs, old(queues)[q].waiters, w)
      ensures w != NOBODY ==> HasHome(old(S()), w) && S() == Leave(old(S()), w) && queues.Keys == old(queues).Keys
      requires NOBODY !in procs
    {
      Waiting(S(), InQueue(q));
      var l := queues[q].waiters;
      var i, k := 0, 0;
      w := NOBODY;
      while i < |l|
        invariant 0 <= i <= |l| && 0 <= k && (i == 0 <==> w == NOBODY) && (i > 0 ==> k < i && w == l[k])
        invariant i > 0 ==> forall j :: 0 <= j < i ==> l[j] in procs && procs[l[j]].priority <= procs[w].priority
        invariant i > 0 ==> forall j :: k < j < i ==> procs[l[j]].priority < procs[w].priority
      {
        assert l[i] in l;
        if w == NOBODY || procs[w].priority <= procs[l[i]].priority {
          w, k := l[i], i;
        }
        i := i + 1;
      }
      if w != NOBODY {
        assert IsLastHighest(procs, l, k) && w in l;
        QueueRemove(w);
      }
    }

    /** process_queue_send: block while the queue is full, hand over to a waiting receiver, or write. */
    method Send(qid: int, message: int) returns (r: Outcome)
      requires Able() && Running()
      requires qid in queues && queues[qid].length == queues[qid].capacity ==> Sound(S()) && active != IDLE
      modifies this`procs, this`rings, this`queues, this`active, this`sent, this`got, this`cons, this`sleepers
      ensures Able() && GoesOn(old(S()), S())
      ensures qid !in old(queues) ==> r == Failed && S() == old(S())
      ensures qid in old(queues) ==> HasSent(old(S()), qid, message, r, S())
    {
      hide Sound, Kept, Steady, ActiveReady, GoesOn, HasSent, PoolsFor;
      StartKnown(S());
      if qid !in queues {
        return Failed;
      }
      r := SendKnown(qid, message);
    }

    method SendKnown(q: int, message: int) returns (r: Outcome)
      requires Steady(S()) && ActiveReady(S()) && q in queues
      requires queues[q].length == queues[q].capacity ==> Sound(S()) && active != IDLE
      modifies this`procs, this`rings, this`queues, this`active, this`sent, this`got, this`cons, this`sleepers
      ensures Steady(S()) && ActiveReady(S()) && GoesOn(old(S()), S()) && HasSent(old(S()), q, message, r, S())
      ensures procs.Keys == old(procs).Keys && queues.Keys == old(queues).Keys
    {
      hide Sound, Kept, Homed, QueueOk, GoesOn, HasBlocked, HasHanded;
      ghost var s := S();
      QueueKnown(s, q);
      if queues[q].length == queues[q].capacity {
        SendFits(s, q, message);
        BlockActive(WaitQueue(q, message, true));
        SoundGoesOn(s, S());
        return Blocked;
      }
      r := Done;
      if queues[q].length == 0 && queues[q].waiters != [] {
        HandOver(q, message);
      } else {
        BelowCapacity(s, q);
        WrittenGoesOn(s, q, message);
        queues, sent := queues[q := RawWrite(queues[q], message)], sent[q := sent[q] + [message]];
        assert got[q := got[q]] == got;
        assert S() == Written(s, q, message);
        GoesOnIs(s, S());
      }
    }

    /** A message goes straight to a waiting receiver. */
    method HandOver(q: int, message: int)
      requires Steady(S()) && ActiveReady(S()) && q in queues && queues[q].length == 0 && queues[q].waiters != []
      modifies this`procs, this`rings, this`queues, this`active, this`sent, this`got
      ensures Steady(S()) && ActiveReady(S()) && GoesOn(old(S()), S()) && HasHanded(old(S()), q, message, S())
      ensures procs.Keys == old(procs).Keys && queues.Keys == old(queues).Keys
    {
      hide Sound, Kept, Homed, GoesOn, HasHanded, Leave, Enter, Wake, CanEnter, LastOfHighest;
      ghost var s := S();
      KeptHomed(s);
      NobodyIsNone(s);
      var w := PopNext(q);
      HandedGoesOn(s, q, w, message);
      HandedSteps(s, q, w, message);
      RingInsert(w, procs[w].(state := Sched(Handed(q, message))));
      sent, got := sent[q := sent[q] + [message]], got[q := got[q] + [message]];
      assert S() == HandedTo(s, q, w, message);
      hide HandedTo;
      assert procs.Keys == s.procs.Keys && queues.Keys == s.queues.Keys;
      SwitchIfUrgent(w);
      GoesOnIs(s, S());
      HandedIs(s, q, message, w, S());
    }

    /** process_queue_receive: block while the queue is empty; else take the oldest message and let a blocked sender
        write. */
    method Receive(qid: int) returns (r: Outcome)
      requires Able() && Running()
      requires qid in queues && queues[qid].length == 0 ==> Sound(S()) && active != IDLE
      modifies this`procs, this`rings, this`queues, this`active, this`sent, this`got, this`cons, this`sleepers
      ensures Able() && GoesOn(old(S()), S())
      ensures qid !in old(queues) ==> r == Failed && S() == old(S())
      ensures qid in old(queues) ==> HasReceived(old(S()), qid, r, S())
    {
      hide Sound, Kept, Steady, ActiveReady, GoesOn, HasReceived, PoolsFor;
      StartKnown(S());
      if qid !in queues {
        return Failed;
      }
      r := ReceiveKnown(qid);
    }

    method ReceiveKnown(q: int) returns (r: Outcome)
      requires Steady(S()) && ActiveReady(S()) && q in queues
      requires queues[q].length == 0 ==> Sound(S()) && active != IDLE
      modifies this`procs, this`rings, this`queues, this`active, this`sent, this`got, this`cons, this`sleepers
      ensures Steady(S()) && ActiveReady(S()) && GoesOn(old(S()), S()) && HasReceived(old(S()), q, r, S())
      ensures procs.Keys == old(procs).Keys && queues.Keys == old(queues).Keys
    {
      ghost var s := S();
      QueueKnown(s, q);
      hide Sound, Kept, Homed, GoesOn, HasBlocked, HasRefilled, QueueOk;
      if queues[q].length == 0 {
        ReceiveFits(s, q);
        BlockActive(WaitQueue(q, 0, false));
        SoundGoesOn(s, S());
        return Blocked;
      }
      r := Received(queues[q].messages[queues[q].readIndex]);
      if queues[q].length == queues[q].capacity && queues[q].waiters != [] {
        Refill(q);
      } else {
        PartlyFull(s, q);
        ReadGoesOn(s, q);
        var message := queues[q].messages[queues[q].readIndex];
        queues, got := queues[q := RawRead(queues[q])], got[q := got[q] + [message]];
        assert sent[q := sent[q]] == sent;
        assert S() == Read(s, q);
        GoesOnIs(s, S());
      }
    }

    /** The oldest message leaves a full queue and that of the blocked sender that is first in line enters. */
    method Refill(q: int)
      requires Steady(S()) && ActiveReady(S()) && q in queues && queues[q].length == queues[q].capacity
      requires queues[q].waiters != []
      modifies this`procs, this`rings, this`queues, this`active, this`sent, this`got
      ensures Steady(S()) && ActiveReady(S()) && GoesOn(old(S()), S()) && HasRefilled(old(S()), q, S())
      ensures procs.Keys == old(procs).Keys && queues.Keys == old(queues).Keys
    {
      hide Sound, Kept, GoesOn, HasRefilled, QueueOk, Leave, Enter, Wake, CanEnter, LastOfHighest, Refilled;
      ghost var s := S();
      var w := RefillBuffer(q);
      RefilledGoesOn(s, q, w);
      RefilledWake(s, q, w);
      RingInsert(w, procs[w].(state := Sched(Accepted)));
      assert S() == Wake(Refilled(s, q, w), w, Accepted);
      assert procs.Keys == s.procs.Keys && queues.Keys == s.queues.Keys;
      SwitchIfUrgent(w);
      GoesOnIs(s, S());
      RefilledIs(s, q, w, S());
    }

    /** The buffer's part of it. */
    method RefillBuffer(q: int) returns (w: int)
      requires Kept(S()) && q in queues && queues[q].length == queues[q].capacity && queues[q].waiters != []
      modifies this`queues, this`sent, this`got
      ensures CanRefill(old(S()), q, w) && LastOfHighest(procs, old(queues)[q].waiters, w)
      ensures HasHome(Refilled(old(S()), q, w), w) && S() == Leave(Refilled(old(S()), q, w), w)
    {
      hide Sound, Kept, Homed, QueueOk, Leave, LastOfHighest, Refilled, Queued;
      ghost var s := S();
      QueueKnown(s, q);
      KeptHomed(s);
      NobodyIsNone(s);
      var first := queues[q].messages[queues[q].readIndex];
      ghost var s1 := s.(queues := s.queues[q := RawRead(s.queues[q])]);
      SameHomes(s, s1);
      queues := queues[q := RawRead(queues[q])];
      w := PopNext(q);
      RefilledKept(s, q, w);
      RefilledLeave(s, q, w);
      var message := procs[w].state.message;
      queues := queues[q := RawWrite(queues[q], message)];
      sent, got := sent[q := sent[q] + [message]], got[q := got[q] + [first]];
    }

    // ----- console -----

    /** cons_try_read: the characters of the first flushed line, at most len; when nothing is flushed the console is
        armed. */
    method TryRead(len: nat) returns (ok: bool, text: seq<char>)
      requires len > 0
      modifies this`flushed, this`armed
      ensures !ok ==> old(flushed) == "" == flushed && armed && text == ""
      ensures ok ==> armed == old(armed) && old(flushed) != "" && IsLine(old(flushed), len, text, flushed)
    {
      if flushed == "" {
        armed := true;
        return false, "";
      }
      var maxLen := if len > |flushed| then |flushed| else len;
      var readLen, readEol := 0, false;
      text := "";
      while !readEol && readLen < maxLen
        invariant 0 <= readLen <= maxLen && (readEol ==> readLen > 0 && flushed[readLen - 1] == '\n')
        invariant text == flushed[..if readEol then readLen - 1 else readLen] && '\n' !in text
      {
        if flushed[readLen] == '\n' {
          readEol := true;
        } else {
          text := text + [flushed[readLen]];
        }
        readLen := readLen + 1;
      }
      assert flushed == flushed[..readLen] + flushed[readLen..];
      assert readEol ==> flushed[..readLen] == text + ['\n'];
      flushed := flushed[readLen..];
      ok := true;
    }

    /** process_wait_cons_read: read a line or block until one is flushed; a woken reader calls it again. */
    method ConsRead(len: nat) returns (r: Outcome, text: seq<char>)
      requires Able() && Running() && (len > 0 && flushed == "" ==> Sound(S()) && active != IDLE)
      modifies this`procs, this`rings, this`queues, this`active, this`cons, this`sleepers, this`flushed, this`armed
      ensures Able() && GoesOn(old(S()), S())
      ensures len == 0 ==> r == Done && text == "" && S() == old(S())
      ensures len > 0 && old(flushed) != "" ==>
        r == Done && IsLine(old(flushed), len, text, flushed) && S() == old(S()).(flushed := flushed)
      ensures len > 0 && old(flushed) == "" ==> r == Blocked && HasBlocked(old(S()).(armed := true), WaitCons, S())
    {
      hide Sound, Kept, Steady, ActiveReady, GoesOn, HasBlocked, PoolsFor, IsLine;
      StartKnown(S());
      if len == 0 {
        return Done, "";
      }
      r, text := ReadLine(len);
    }

    method ReadLine(len: nat) returns (r: Outcome, text: seq<char>)
      requires Steady(S()) && ActiveReady(S()) && len > 0 && (flushed == "" ==> Sound(S()) && active != IDLE)
      modifies this`procs, this`rings, this`queues, this`active, this`cons, this`sleepers, this`flushed, this`armed
      ensures Steady(S()) && ActiveReady(S()) && GoesOn(old(S()), S())
      ensures procs.Keys == old(procs).Keys && queues.Keys == old(queues).Keys
      ensures old(flushed) != "" ==>
          r == Done && IsLine(old(flushed), len, text, flushed) && S() == old(S()).(flushed := flushed)
      ensures old(flushed) == "" ==> r == Blocked && HasBlocked(old(S()).(armed := true), WaitCons, S())
    {
      hide Sound, Kept, GoesOn, HasBlocked, IsLine;
      ghost var s := S();
      NoReaders(s);
      FlushedFits(s);
      var ok;
      ok, text := TryRead(len);
      LineShorter(s.flushed, len, text, flushed);
      if ok {
        ConsoleGoesOn(s, flushed, armed);
        GoesOnIs(s, S());
        return Done, text;
      }
      ConsoleSound(s, flushed, armed);
      SoundSteady(S());
      ReadFits(S());
      BlockActive(WaitCons);
      SoundGoesOn(s, S());
      r := Blocked;
    }

    /** cons_flush_line_buffer: the line, as much of it as fits, and a line break; all readers are woken before any
        switch. When the buffer is full the room wraps around and the copy would leave the buffer; it does not happen
        here then. */
    method ConsFlush(line: seq<char>) returns (inside: bool)
      requires Able() && |line| <= LINE_BUFFER_CAP
      modifies this`procs, this`rings, this`active, this`cons, this`flushed, this`armed
      ensures Able() && GoesOn(old(S()), S()) && (inside <==> |old(flushed)| < ALL_BUFFER_CAP)
      ensures inside ==>
          cons == [] && WasFlushed(old(S()), Truncated(line, ALL_BUFFER_CAP - |old(flushed)| - 1) + ['\n'], S())
      ensures !inside ==> S() == old(S())
    {
      hide Sound, WasFlushed, PoolsFor, GoesOn;
      FlushedFits(S());
      StartKnown(S());
      FlushFits(|flushed|, |line|);
      var room := (ALL_BUFFER_CAP - |flushed| - 1) % WORD;
      var copied := if room > |line| then |line| else room;
      inside := |flushed| + copied + 1 <= ALL_BUFFER_CAP;
      if inside {
        assert line[..copied] == Truncated(line, ALL_BUFFER_CAP - |flushed| - 1);
        FlushText(line[..copied] + ['\n']);
      }
    }

    /** The text is appended, and process_wait_cons_read_wake is called if the console is armed. */
    method FlushText(text: seq<char>)
      requires Steady(S()) && ActiveReady(S()) && text != "" && |flushed| + |text| <= ALL_BUFFER_CAP
      modifies this`procs, this`rings, this`active, this`cons, this`flushed, this`armed
      ensures Steady(S()) && ActiveReady(S()) && GoesOn(old(S()), S())
      ensures WasFlushed(old(S()), text, S()) && cons == [] && flushed == old(flushed) + text
      ensures procs.Keys == old(procs).Keys
    {
      hide Sound, Kept, GoesOn, WakeEach, OnlyWoken, Urgent, WasFlushed;
      ghost var s := S();
      NoReaders(s);
      ReadersGone(s);
      var top := NOBODY;
      if armed {
        top := WakeReaders();
      } else {
        NoneToWake(s);
      }
      flushed, armed := flushed + text, false;
      assert S() == LineFlushed(s, text);
      FlushGoesOn(s, text, top);
      GoesOnIs(s, Urgent(LineFlushed(s, text), top));
      TopOfIn(s, s.cons, top);
      assert procs.Keys == s.procs.Keys;
      SwitchIfUrgent(top);
      FlushedIs(s, text, top, S());
    }

    /** The loop of process_wait_cons_read_wake. */
    method WakeReaders() returns (top: int)
      requires Kept(S())
      modifies this`procs, this`rings, this`cons
      ensures S() == WakeEach(old(S()), old(cons), ReadAgain) && TopOf(old(procs), old(cons), top)
    {
      hide Wake, Kept, Homed, WakeEach, TopOf, SameRanks;
      ghost var s, l, i := S(), cons, 0;
      RanksBegin(s, l);
      top := NOBODY;
      while cons != []
        invariant Kept(S()) && 0 <= i <= |l| && cons == l[i..] && SameRanks(s.procs, procs)
        invariant WakeEach(S(), l[i..], ReadAgain) == WakeEach(s, l, ReadAgain) && TopOf(s.procs, l[..i], top)
        decreases |l| - i
      {
        ghost var t := S();
        var p := WakeReader();
        WakeUnfold(t, l[i..], ReadAgain);
        RanksNext(s, t, S(), l, i, top);
        if top == NOBODY || procs[top].priority < procs[p].priority {
          top := p;
        }
        i := i + 1;
      }
      assert l[..i] == l && l[i..] == [];
      WakeUnfold(S(), [], ReadAgain);
    }

    method WakeReader() returns (p: int)
      requires Kept(S()) && cons != []
      modifies this`procs, this`rings, this`cons
      ensures p == old(cons)[0] && p in old(procs) && S() == Wake(old(S()), p, ReadAgain) && Kept(S())
      ensures cons == old(cons)[1..] && OnlyWoken(old(S()), S(), [p], ReadAgain)
    {
      WakeHead(S(), OnConsole, ReadAgain);
      hide Wake, Kept, Enter;
      p := cons[0];
      cons := cons[1..];
      RingInsert(p, procs[p].(state := Sched(ReadAgain)));
    }

    // ----- time -----

    /** process_wait_clock. It hangs exactly when the walk that inserts the sleeper never ends. */
    method WaitClock(clock: nat, now: nat) returns (r: Outcome)
      requires Able() && Running() && (clock > now ==> Sound(S()) && active != IDLE)
      modifies this`procs, this`rings, this`queues, this`active, this`cons, this`sleepers
      ensures r == Hung <==> clock > now && !InsertionEnds(old(procs), old(sleepers), old(active), clock)
      ensures r != Hung ==> Able() && GoesOn(old(S()), S())
      ensures clock <= now ==>
        r == Done && Homed(old(S())) && old(active) in old(procs)
            && S() == old(S()).(active := Successor(old(S()), NOBODY))
      ensures clock > now && r != Hung ==> r == Blocked && HasBlocked(old(S()), WaitTime(clock), S())
    {
      hide Sound, GoesOn, HasBlocked, PoolsFor, Successor, InsertionEnds, Homed;
      ghost var s := S();
      StartKnown(s);
      if clock <= now {
        Tick();
        return Done;
      }
      InsertionEndsAtHead(procs, sleepers, active, clock);
      if sleepers != [] && !NotLater(procs, sleepers[0], clock) {
        return Hung;
      }
      SleepFits(s, clock);
      BlockActive(WaitTime(clock));
      SoundGoesOn(s, S());
      r := Blocked;
    }

    /** process_time_pit_handler: all sleepers whose time has come are ready, the most urgent one runs if it outranks
        the active. */
    method TimeHandler(clock: int)
      requires Able()
      modifies this`procs, this`rings, this`active, this`sleepers
      ensures Able() && GoesOn(old(S()), S()) && WasTimed(old(S()), clock, S())
    {
      hide Sound, WasTimed, PoolsFor, GoesOn;
      WakeDue(clock);
    }

    method WakeDue(clock: int)
      requires Steady(S()) && ActiveReady(S())
      modifies this`procs, this`rings, this`active, this`sleepers
      ensures Steady(S()) && ActiveReady(S()) && GoesOn(old(S()), S())
      ensures WasTimed(old(S()), clock, S()) && procs.Keys == old(procs).Keys
    {
      hide Sound, Kept, GoesOn, WakeEach, OnlyWoken, Urgent, WasTimed, Due, TimeCame;
      ghost var s := S();
      var top := WakeSleepers(clock);
      TimeCameIs(s, clock);
      TimeGoesOn(s, clock, top);
      GoesOnIs(s, Urgent(TimeCame(s, clock), top));
      TimeKeys(s, clock, top);
      SwitchIfUrgent(top);
      TimedIs(s, clock, top, S());
    }

    /** Its loop. */
    method WakeSleepers(clock: int) returns (top: int)
      requires Kept(S())
      modifies this`procs, this`rings, this`sleepers
      ensures S() == WakeEach(old(S()), Due(old(procs), old(sleepers), clock), Nothing) && Kept(S())
      ensures TopOf(old(procs), Due(old(procs), old(sleepers), clock), top)
    {
      hide Wake, Kept, Homed, WakeEach, TopOf, SameRanks, Due, StillAsleep, OnlyWoken;
      ghost var s, l, i := S(), Due(procs, sleepers, clock), 0;
      RanksBegin(s, l);
      top := NOBODY;
      StillAsleepBegins(s);
      while sleepers != [] && sleepers[0] in procs && procs[sleepers[0]].state.WaitTime?
          && procs[sleepers[0]].state.clock <= clock
        invariant Kept(S()) && 0 <= i <= |l| && sleepers == s.sleepers[i..] && SameRanks(s.procs, procs)
        invariant StillAsleep(s, S(), i)
        invariant WakeEach(S(), l[i..], Nothing) == WakeEach(s, l, Nothing) && TopOf(s.procs, l[..i], top)
        decreases |l| - i
      {
        StillDue(s, S(), clock, i);
        ghost var t := S();
        var p := WakeSleeper();
        WakeUnfold(t, l[i..], Nothing);
        RanksNext(s, t, S(), l, i, top);
        StillAsleepNext(s, t, S(), i);
        if top == NOBODY || procs[top].priority < procs[p].priority {
          top := p;
        }
        i := i + 1;
      }
      StillDue(s, S(), clock, i);
      assert l[..i] == l && l[i..] == [];
      WakeUnfold(S(), [], Nothing);
    }

    method WakeSleeper() returns (p: int)
      requires Kept(S()) && sleepers != []
      modifies this`procs, this`rings, this`sleepers
      ensures p == old(sleepers)[0] && p in old(procs) && S() == Wake(old(S()), p, Nothing) && Kept(S())
      ensures sleepers == old(sleepers)[1..] && OnlyWoken(old(S()), S(), [p], Nothing)
    {
      WakeHead(S(), Asleep, Nothing);
      hide Wake, Kept, Enter;
      p := sleepers[0];
      sleepers := sleepers[1..];
      RingInsert(p, procs[p].(state := Sched(Nothing)));
    }
  }

  // ----- console and time: what the calls do -----

  /** A line, or a part of it, was taken off the front of the flushed characters: with its break when both are within
      len characters, otherwise as much as there is of it, or len characters. */
  ghost predicate IsLine(before: seq<char>, len: nat, text: seq<char>, after: seq<char>) {
    && '\n' !in text
    && ((|text| < len && before == text + ['\n'] + after)
        || (|text| == AtMost(len, |before|) && before == text + after))
  }

  function AtMost(len: nat, n: nat): nat { if len > n then n else len }

  /** What a read returns is the longest beginning without a line break of at most len characters; a line break is
      taken off exactly when one comes within the first len characters; no more than len characters are taken off. */
  lemma LongestLine(before: seq<char>, len: nat, text: seq<char>, after: seq<char>)
    requires IsLine(before, len, text, after)
    ensures text <= before && |text| <= len && '\n' !in text
    ensures forall t: seq<char> :: t <= before && |t| <= len && '\n' !in t ==> t <= text
    ensures |text| <= |before| - |after| <= len && after == before[|before| - |after|..]
    ensures |before| - |after| == |text| + (if '\n' in before[..AtMost(len, |before|)] then 1 else 0)
  {
    if before == text + ['\n'] + after && |text| < len {
      assert before[|text|] == '\n' && before[..AtMost(len, |before|)][|text|] == '\n';
      assert after == before[|text| + 1..];
      forall m | |text| < m <= |before| ensures '\n' in before[..m] {
        assert before[..m][|text|] == '\n';
      }
      forall t: seq<char> | t <= before && '\n' !in t ensures t <= text {
        assert t == before[..|t|];
      }
    } else {
      assert before[..AtMost(len, |before|)] == text;
    }
  }

  /** A read has one answer. */
  lemma OneLine(before: seq<char>, len: nat, text: seq<char>, after: seq<char>, text': seq<char>, after': seq<char>)
    requires IsLine(before, len, text, after) && IsLine(before, len, text', after')
    ensures text == text' && after == after'
  {
    LongestLine(before, len, text, after);
    LongestLine(before, len, text', after');
    assert text <= text' && text' <= text;
  }

  function Truncated(line: seq<char>, n: nat): (t: seq<char>)
    ensures t <= line && |t| == AtMost(n, |line|)
  {
    if |line| <= n then line else line[..n]
  }

  lemma LineShorter(before: seq<char>, len: nat, text: seq<char>, after: seq<char>)
    ensures IsLine(before, len, text, after) ==> |after| <= |before|
  {
  }

  lemma FlushedFits(s: Sys)
    requires Kept(s)
    ensures |s.flushed| <= ALL_BUFFER_CAP
  {
  }

  /** The copy stays inside the buffer, with room for the line break, exactly when the buffer is not full. */
  lemma FlushFits(length: nat, line: nat)
    requires length <= ALL_BUFFER_CAP
    ensures var room := (ALL_BUFFER_CAP - length - 1) % WORD; var copied := if room > line then line else room;
            length + copied + 1 <= ALL_BUFFER_CAP <==> length < ALL_BUFFER_CAP
  {
  }

  /** A flush fills the buffer exactly when the line takes all the room. */
  lemma FlushFills(s: Sys, line: seq<char>)
    requires |s.flushed| < ALL_BUFFER_CAP
    ensures var room := ALL_BUFFER_CAP - |s.flushed| - 1;
            |LineFlushed(s, Truncated(line, room) + ['\n']).flushed| == ALL_BUFFER_CAP <==> |line| >= room
  {
  }

  ghost predicate WasFlushed(s: Sys, text: seq<char>, s': Sys) {
    exists top :: TopOf(s.procs, s.cons, top) && s' == Urgent(LineFlushed(s, text), top)
  }

  lemma FlushedIs(s: Sys, text: seq<char>, top: int, s': Sys)
    requires TopOf(s.procs, s.cons, top) && s' == Urgent(LineFlushed(s, text), top)
    ensures WasFlushed(s, text, s')
  {
  }

  /** While there is something to read, or the console is not armed, nobody waits for the console. */
  lemma NoReaders(s: Sys)
    requires Kept(s)
    ensures s.flushed != "" || !s.armed ==> s.cons == []
  {
  }

  lemma NoneToWake(s: Sys)
    requires s.cons == []
    ensures WakeEach(s, s.cons, ReadAgain) == s && TopOf(s.procs, s.cons, NOBODY)
  {
  }

  lemma TopOfIn(s: Sys, l: seq<int>, top: int)
    requires TopOf(s.procs, l, top)
    ensures top != NOBODY ==> top in s.procs
  {
  }

  lemma ReadFits(s: Sys)
    requires Kept(s) && s.active in s.procs && s.flushed == "" && s.armed
    ensures s.active in s.procs && Fits(s, s.procs[s.active], s.procs[s.active].(state := WaitCons))
  {
    assert HasHome(s, s.active);
  }

  lemma SleepFits(s: Sys, clock: int)
    requires Kept(s) && s.active in s.procs && InsertsAtHead(s.procs, s.sleepers, clock)
    ensures s.active in s.procs && Fits(s, s.procs[s.active], s.procs[s.active].(state := WaitTime(clock)))
  {
    assert HasHome(s, s.active);
  }

  ghost predicate WasTimed(s: Sys, clock: int, s': Sys) {
    exists top :: TopOf(s.procs, Due(s.procs, s.sleepers, clock), top) && s' == Urgent(TimeCame(s, clock), top)
  }

  lemma TimedIs(s: Sys, clock: int, top: int, s': Sys)
    requires TopOf(s.procs, Due(s.procs, s.sleepers, clock), top) && s' == Urgent(TimeCame(s, clock), top)
    ensures WasTimed(s, clock, s')
  {
  }

  lemma TimeCameIs(s: Sys, clock: int)
    ensures TimeCame(s, clock) == WakeEach(s, Due(s.procs, s.sleepers, clock), Nothing)
  {
  }

  lemma TimeKeys(s: Sys, clock: int, top: int)
    requires Kept(s) && s.active in s.procs && TopOf(s.procs, Due(s.procs, s.sleepers, clock), top)
    ensures TimeCame(s, clock).procs.Keys == s.procs.Keys && TimeCame(s, clock).active == s.active
    ensures s.active in s.procs
    ensures top != NOBODY ==> top in s.procs
  {
    var l := Due(s.procs, s.sleepers, clock);
    Waiting(s, Asleep);
    DuePrefix(s.procs, s.sleepers, clock);
    forall p | p in l
      ensures p in s.procs && s.procs[p].priority <= MAX_PRIORITY
    {
      assert HasHome(s, p);
    }
    WakeEachKept(s, l, Nothing, MAX_PRIORITY);
  }

  /** The sleepers from position i on have not been touched. */
  ghost predicate StillAsleep(s: Sys, t: Sys, i: nat) {
    i <= |s.sleepers| && NoDups(s.sleepers) && forall p :: p in s.sleepers[i..] ==>
        p in s.procs && p in t.procs && t.procs[p] == s.procs[p]
  }

  lemma StillAsleepBegins(s: Sys)
    requires Kept(s)
    ensures StillAsleep(s, s, 0)
  {
    Waiting(s, Asleep);
  }

  lemma StillAsleepNext(s: Sys, t: Sys, u: Sys, i: nat)
    requires StillAsleep(s, t, i) && i < |s.sleepers| && OnlyWoken(t, u, [s.sleepers[i]], Nothing)
    ensures StillAsleep(s, u, i + 1)
  {
    forall p | p in s.sleepers[i + 1..]
      ensures p in s.sleepers[i..] && p != s.sleepers[i]
    {
      var j :| 0 <= j < |s.sleepers[i + 1..]| && s.sleepers[i + 1..][j] == p;
      assert s.sleepers[i..][j + 1] == p;
    }
  }

  /** The head of the remaining list is due exactly when it is in the due part. */
  lemma StillDue(s: Sys, t: Sys, clock: int, i: nat)
    requires Kept(s) && StillAsleep(s, t, i) && t.sleepers == s.sleepers[i..] && i <= |Due(s.procs, s.sleepers, clock)|
    ensures var l, r := Due(s.procs, s.sleepers, clock), t.sleepers;
            && l <= s.sleepers
            && (r != [] && r[0] in t.procs && t.procs[r[0]].state.WaitTime? && t.procs[r[0]].state.clock <= clock <==>
                i < |l|)
            && (i < |l| ==> l[i] == s.sleepers[i] == r[0] && r[1..] == s.sleepers[i + 1..])
  {
    DuePrefix(s.procs, s.sleepers, clock);
    if i < |s.sleepers| {
      var p := s.sleepers[i];
      assert s.sleepers[i..][0] == p && p in s.sleepers[i..];
    }
  }

  /** A message was handed to the waiting receiver that is first in line. */
  ghost predicate HasHanded(s: Sys, q: int, message: int, s': Sys)
    requires q in s.queues
  {
    q in s.sent && q in s.got
    && exists w :: LastOfHighest(s.procs, s.queues[q].waiters, w) && s' == Urgent(HandedTo(s, q, w, message), w)
  }

  lemma HandedIs(s: Sys, q: int, message: int, w: int, s': Sys)
    requires q in s.queues && q in s.sent && q in s.got && LastOfHighest(s.procs, s.queues[q].waiters, w)
    requires s' == Urgent(HandedTo(s, q, w, message), w)
    ensures HasHanded(s, q, message, s')
  {
  }

  /** What process_queue_send does to a queue that exists. */
  ghost predicate HasSent(s: Sys, q: int, message: int, r: Outcome, s': Sys)
    requires q in s.queues
  {
    var qu := s.queues[q];
    if qu.length == qu.capacity then r == Blocked && HasBlocked(s, WaitQueue(q, message, true), s')
    else r == Done && q in s.sent && q in s.got && qu.writeIndex < |qu.messages| &&
         if qu.length == 0 && qu.waiters != [] then HasHanded(s, q, message, s') else s' == Written(s, q, message)
  }

  /** The message of the blocked sender that is first in line entered, and the sender goes on. */
  ghost predicate HasRefilled(s: Sys, q: int, s': Sys)
    requires q in s.queues
  {
    var qu := s.queues[q];
    && q in s.sent && q in s.got && qu.length > 0 && qu.readIndex < |qu.messages| && qu.writeIndex < |qu.messages|
    && exists w :: LastOfHighest(s.procs, qu.waiters, w) && w in s.procs && s.procs[w].state.WaitQueue?
                   && s' == Urgent(Wake(Refilled(s, q, w), w, Accepted), w)
  }

  ghost predicate CanRefill(s: Sys, q: int, w: int) {
    && q in s.queues && q in s.sent && q in s.got && s.queues[q].length == s.queues[q].capacity > 0
    && s.queues[q].readIndex < |s.queues[q].messages| && s.queues[q].writeIndex < |s.queues[q].messages|
    && w in s.queues[q].waiters && w in s.procs && s.procs[w].state.WaitQueue?
  }

  lemma RefilledIs(s: Sys, q: int, w: int, s': Sys)
    requires q in s.queues && q in s.sent && q in s.got && s.queues[q].length > 0
    requires s.queues[q].readIndex < |s.queues[q].messages|
    requires s.queues[q].writeIndex < |s.queues[q].messages| && w in s.procs && s.procs[w].state.WaitQueue?
    requires LastOfHighest(s.procs, s.queues[q].waiters, w) && s' == Urgent(Wake(Refilled(s, q, w), w, Accepted), w)
    ensures HasRefilled(s, q, s')
  {
  }

  /** What process_queue_receive does to a queue that exists. */
  ghost predicate HasReceived(s: Sys, q: int, r: Outcome, s': Sys)
    requires q in s.queues
  {
    var qu := s.queues[q];
    if qu.length == 0 then r == Blocked && HasBlocked(s, WaitQueue(q, 0, false), s')
    else q in s.sent && q in s.got && qu.readIndex < |qu.messages| && r == Received(qu.messages[qu.readIndex]) &&
         if qu.length == qu.capacity && qu.waiters != [] then HasRefilled(s, q, s') else s' == Read(s, q)
  }

  lemma ReceiveFits(s: Sys, q: int)
    requires Kept(s) && s.active in s.procs && q in s.queues && s.queues[q].length == 0
    ensures s.active in s.procs && Fits(s, s.procs[s.active], s.procs[s.active].(state := WaitQueue(q, 0, false)))
  {
    assert HasHome(s, s.active);
  }

  lemma BelowCapacity(s: Sys, q: int)
    requires Kept(s) && q in s.queues && s.queues[q].length != s.queues[q].capacity
    ensures s.queues[q].length < s.queues[q].capacity
  {
    assert QueueSound(s, q);
  }

  lemma PartlyFull(s: Sys, q: int)
    requires Kept(s) && q in s.queues && s.queues[q].length > 0
    requires !(s.queues[q].length == s.queues[q].capacity && s.queues[q].waiters != [])
    ensures s.queues[q].waiters == []
  {
    assert QueueSound(s, q);
    NoWaiters(s, q);
  }

  lemma RefilledWake(s: Sys, q: int, w: int)
    requires Kept(s) && s.active in s.procs && CanRefill(s, q, w)
    ensures var t, pc := Refilled(s, q, w), s.procs[w].(state := Sched(Accepted));
            && HasHome(t, w) && t.procs == s.procs && CanEnter(Leave(t, w), pc)
            && Wake(t, w, Accepted) == Enter(Leave(t, w), w, pc)
            && Leave(t, w).procs == s.procs
            && Wake(t, w, Accepted).procs.Keys == s.procs.Keys && Wake(t, w, Accepted).queues.Keys == s.queues.Keys
            && Kept(Wake(t, w, Accepted)) && Wake(t, w, Accepted).active == s.active && s.active in s.procs
  {
    Waiting(s, InQueue(q));
    RefilledKept(s, q, w);
    var t := Refilled(s, q, w);
    hide Kept, Homed;
    WakeKept(t, w, Accepted, MAX_PRIORITY);
    LeaveLists(t, w, Nowhere);
    LeaveLists(t, w, Ring(s.procs[w].priority));
  }

  lemma RefilledLeave(s: Sys, q: int, w: int)
    requires Kept(s) && CanRefill(s, q, w)
    ensures HasHome(Refilled(s, q, w), w)
    ensures var s1 := s.(queues := s.queues[q := RawRead(s.queues[q])]); var message := s.procs[w].state.message;
            && HasHome(s1, w) && q in Leave(s1, w).queues
            && Leave(s1, w).queues[q].writeIndex < |Leave(s1, w).queues[q].messages| && Leave(s1, w).procs == s.procs
            && Leave(Refilled(s, q, w), w) ==
                Leave(s1, w).(queues := Leave(s1, w).queues[q := RawWrite(Leave(s1, w).queues[q], message)],
                    sent := s.sent[q := s.sent[q] + [message]],
                    got := s.got[q := s.got[q] + [s.queues[q].messages[s.queues[q].readIndex]]])
  {
    Waiting(s, InQueue(q));
  }

  lemma QueueKnown(s: Sys, q: int)
    requires Kept(s) && q in s.queues
    ensures q in s.sent && q in s.got && QueueOk(s.queues[q])
    ensures s.queues[q].readIndex < |s.queues[q].messages| && s.queues[q].writeIndex < |s.queues[q].messages|
    ensures s.queues[q].capacity > 0
  {
    assert QueueSound(s, q);
  }

  lemma SendFits(s: Sys, q: int, message: int)
    requires Kept(s) && s.active in s.procs && q in s.queues && s.queues[q].length == s.queues[q].capacity
    ensures s.active in s.procs && Fits(s, s.procs[s.active], s.procs[s.active].(state := WaitQueue(q, message, true)))
  {
    assert HasHome(s, s.active);
  }

  lemma HandedSteps(s: Sys, q: int, w: int, message: int)
    requires Kept(s) && s.active in s.procs && q in s.queues && w in s.queues[q].waiters && q in s.sent && q in s.got
    ensures w in s.procs && HasHome(s, w) && CanEnter(Leave(s, w), s.procs[w].(state := Sched(Handed(q, message))))
    ensures Leave(s, w).procs == s.procs
    ensures Wake(s, w, Handed(q, message)) == Enter(Leave(s, w), w, s.procs[w].(state := Sched(Handed(q, message))))
    ensures var t := HandedTo(s, q, w, message);
        t.procs.Keys == s.procs.Keys && t.queues.Keys == s.queues.Keys && t.active in t.procs
    ensures Wake(s, w, Handed(q, message)).sent == s.sent && Wake(s, w, Handed(q, message)).got == s.got
  {
    Waiting(s, InQueue(q));
    WakeKept(s, w, Handed(q, message), MAX_PRIORITY);
    LeaveLists(s, w, Nowhere);
    LeaveLists(s, w, Ring(s.procs[w].priority));
  }

  ghost predicate AllQueuesUsed(qs: map<int, Queue>) { forall q :: 0 <= q < QUEUE_POOL_CAP ==> q in qs }

  ghost predicate FreshQueue(qu: Queue, capacity: int) {
    QueueOk(qu) && qu.capacity == capacity && qu.length == 0 && qu.waiters == []
  }

  /** The same processes with the same priorities. */
  ghost predicate SameRanks(ps: Procs, ps': Procs) {
    ps'.Keys == ps.Keys && forall p :: p in ps ==> ps'[p].priority == ps[p].priority
  }

  lemma RanksBegin(s: Sys, l: seq<int>)
    ensures SameRanks(s.procs, s.procs) && TopOf(s.procs, l[..0], NOBODY) && l[0..] == l
  {
  }

  /** One more process of a list is woken, and compared with the most urgent one so far. */
  lemma RanksNext(s: Sys, t: Sys, u: Sys, l: seq<int>, i: nat, top: int)
    requires i < |l| && TopOf(s.procs, l[..i], top) && SameRanks(s.procs, t.procs) && Kept(t) && l[i] in t.procs
    requires exists r :: OnlyWoken(t, u, [l[i]], r)
    ensures SameRanks(s.procs, u.procs) && l[i] in u.procs && (top != NOBODY ==> top in u.procs)
    ensures TopOf(s.procs, l[..i + 1], if top == NOBODY || u.procs[top].priority < u.procs[l[i]].priority then l[i]
        else top)
    ensures l[i..][0] == l[i] && l[i..][1..] == l[i + 1..]
  {
    NobodyOnly(t);
    assert l[..i + 1] == l[..i] + [l[i]];
    TopNext(s.procs, l[..i], l[i], top);
  }

  lemma CreatedSound(s: Sys, q: int, qu: Queue)
    requires Sound(s) && q !in s.queues && qu.waiters == [] && QueueOk(qu) && qu.length == 0
    ensures Sound(SetQueue(s, q, qu, [], []))
  {
    NewQueueKept(s, q, qu);
    SoundLike(s, SetQueue(s, q, qu, [], []));
  }

  lemma CreatedFresh(qu: Queue, capacity: int)
    requires capacity > 0 && qu.capacity == capacity && |qu.messages| == capacity && qu.length == 0 && qu.waiters == []
    requires qu.readIndex == 0 && qu.writeIndex == 0
    ensures FreshQueue(qu, capacity) && QueueOk(qu)
  {
  }

  lemma RingNext(s: Sys, p: int)
    requires Kept(s) && p in s.procs && s.procs[p].state.Sched?
    ensures 0 <= s.procs[p].priority < |s.rings| && p in s.rings[s.procs[p].priority]
    ensures NextOf(s.rings[s.procs[p].priority], p) == NOBODY <==> s.rings[s.procs[p].priority] == [p]
    ensures NextOf(s.rings[s.procs[p].priority], p) != p
  {
    InItsRing(s, p);
    NobodyOnly(s);
    AfterInRing(s.rings[s.procs[p].priority], p);
  }

  lemma RerankedRecord(s: Sys, p: int, k: int)
    requires Kept(s) && p in s.procs && 0 <= k < MAX_PRIORITY && !s.procs[p].state.Sched?
    requires !s.procs[p].state.WaitQueue?
    ensures Reranked(s, p, k) == s.(procs := s.procs[p := s.procs[p].(priority := k)])
  {
  }

  lemma RankedKeys(s: Sys, p: int, k: int)
    requires Kept(s) && p in s.procs && 0 <= k < MAX_PRIORITY
    ensures Ranked(s, p, k).procs.Keys == s.procs.Keys && Ranked(s, p, k).queues.Keys == s.queues.Keys
    ensures !s.procs[p].state.Sched? ==> Ranked(s, p, k) == Reranked(s, p, k)
  {
    RerankedKept(s, p, k);
    assert HasHome(s, p);
    MoveFields(s, p, s.procs[p].(priority := k));
  }

  /** The active process has blocked in a state, and its successor runs. */
  ghost predicate HasBlocked(s: Sys, state: State, s': Sys) {
    s.active in s.procs && CanBlock(s, s.procs[s.active].(state := state))
        && s' == Block(s, s.procs[s.active].(state := state))
  }

  /** Waiting for this pid has to block: there is such a child, or any will do, but no zombie yet. */
  predicate WaitBlocks(ps: Procs, a: int, pid: int)
    requires a in ps
  {
    var c := FirstChild(ps, ps[a].children, pid);
    ps[a].children != [] && (if c == NOBODY then pid < 0 else c in ps && !ps[c].state.Zombie?)
  }

  lemma ChildFound(s: Sys, pid: int)
    requires Kept(s) && s.active in s.procs
    ensures var c := FirstChild(s.procs, s.procs[s.active].children, pid);
            && (c != NOBODY ==> c in s.procs && c in s.procs[s.active].children && s.procs[c].parent == s.active)
            && Fits(s, s.procs[s.active], s.procs[s.active].(state := WaitChild(pid)))
    ensures var c := FirstChild(s.procs, s.procs[s.active].children, pid); c != NOBODY && pid >= 0 ==> c == pid
  {
    assert HasHome(s, s.active) && Branch(s.procs, s.depth, s.active);
    FirstChildIs(s.procs, s.procs[s.active].children, pid);
  }

  lemma ReapableChild(s: Sys, c: int)
    requires Kept(s) && ActiveReady(s) && ReapsZombie(s.procs, s.active)
    requires s.procs[s.active].state == Sched(ReapChild(c))
    ensures c in s.procs && c != s.active && s.procs[c].state.Zombie? && s.procs[c].parent == s.active
  {
    assert ReapsZombie(s.procs, s.active) && Branch(s.procs, s.depth, s.active);
    ChildOf(s.procs, s.depth, s.active, c);
  }

  /** No PID is left. */
  ghost predicate AllUsed(ps: Procs) { forall p :: 0 <= p < PROCESS_POOL_CAP ==> p in ps }

  lemma ActiveAlive(s: Sys)
    requires Sound(s)
    ensures Kept(s) && s.active in s.procs && s.procs[s.active].state.Sched? && Homed(s)
  {
  }

  lemma BornKeys(s: Sys, c: int, priority: int)
    requires s.active in s.procs && s.active in s.depth && c !in s.procs && 0 <= priority < MAX_PRIORITY <= |s.rings|
    ensures var t := Born(s, c, priority);
        t.procs.Keys == s.procs.Keys + {c} && t.active == s.active && t.queues == s.queues
  {
    EnterRing(s, c, Newborn(s.active, priority));
  }

  lemma BornStays(s: Sys, p: int)
    ensures Urgent(s, p).procs == s.procs && Urgent(s, p).queues == s.queues
  {
  }

  lemma NotAboveActive(s: Sys, p: int)
    requires p != s.active
    ensures s.active in Subtree(s, p) <==> s.active in Subtree(s, p) - {p}
  {
  }

  /** What a call by a ready process may rely on. */
  lemma StartKnown(s: Sys)
    requires Steady(s) && ActiveReady(s)
    ensures Kept(s) && Homed(s) && IDLE in s.procs && s.active in s.procs && !s.procs[s.active].state.Zombie?
    ensures s.active in s.depth
    ensures |s.rings| == MAX_PRIORITY && GoesOn(s, s)
  {
    KeptRings(s);
  }

  lemma FirstSound(s: Sys)
    requires s.procs == map[IDLE := Proc(NOBODY, [], 0, Sched(Nothing))] && s.active == IDLE && s.queues == map[]
    requires |s.rings| == MAX_PRIORITY
    requires forall i :: 0 <= i < MAX_PRIORITY ==> s.rings[i] == if i == 0 then [IDLE] else []
    requires s.cons == [] && s.sleepers == [] && s.flushed == "" && s.depth == map[IDLE := 0]
    ensures Sound(s)
  {
    forall p | p in s.procs
      ensures HasHome(s, p)
    {
    }
    forall h | HasList(s, h)
      ensures Houses(s, h)
    {
    }
    assert Homed(s);
    assert Branch(s.procs, s.depth, IDLE);
    assert ReapsZombie(s.procs, IDLE);
  }

  /** The two halves of blocking. */
  lemma BlockSteps(s: Sys, pc: Proc)
    requires Sound(s) && CanEnter(s, pc) && !pc.state.Sched?
    ensures Homed(s) && HasHome(s, s.active) && s.procs[s.active].state.Sched?
    ensures CanEnter(Leave(s, s.active), pc) && Leave(s, s.active).procs == s.procs
    ensures Leave(s, s.active).active == s.active
    ensures Enter(Leave(s, s.active), s.active, pc) == Move(s, s.active, pc) && Homed(Move(s, s.active, pc))
    ensures Move(s, s.active, pc).active == s.active && Move(s, s.active, pc).procs == s.procs[s.active := pc]
  {
    assert HasHome(s, s.active);
    LeaveLists(s, s.active, HomeOf(pc));
    MoveHomed(s, s.active, pc);
    MoveFields(s, s.active, pc);
  }
}
