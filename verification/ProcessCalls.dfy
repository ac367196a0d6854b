/** The calls and interrupts of the process kernel are events of its runs. */
module ProcessCalls {
  import opened Lists
  import opened Processes
  import opened ProcessTree
  import opened SleepWalks
  import opened ProcessOrder
  import opened MessageQueues
  import opened ProcessState
  import opened ProcessSteps
  import opened ProcessLife
  import opened ProcessDeath
  import opened ProcessSwitch
  import opened ProcessAway
  import opened ProcessQueues
  import opened ProcessSteady
  import opened ProcessKernel
  import opened ProcessRuns
  import opened ProcessHistory

  // ----- system calls -----

  /** The system calls on processes, queues, the clock and the console. */
  datatype Call =
    | Start(priority: int, memory: bool)
    | Exit(code: int)
    | Kill(pid: int)
    | Wait(pid: int)
    | SetPriority(pid: int, priority: int)
    | QueueCreate(capacity: int, memory: bool)
    | QueueDelete(queue: int)
    | QueueReset(queue: int)
    | Send(queue: int, message: int)
    | Receive(queue: int)
    | WaitClock(clock: nat, now: nat)
    | ReadLine(len: nat)

  /** The calls that look for a process below the active priority: those that block or kill the active process. */
  ghost predicate Searches(s: Sys, c: Call)
    requires s.active in s.procs
  {
    match c
    case Exit(_) => true
    case Kill(pid) => pid != IDLE && (pid == s.active || s.active in Subtree(s, pid))
    case Wait(pid) => WaitBlocks(s.procs, s.active, pid)
    case Send(q, _) => q in s.queues && s.queues[q].length == s.queues[q].capacity
    case Receive(q) => q in s.queues && s.queues[q].length == 0
    case WaitClock(clock, now) => clock > now
    case ReadLine(len) => len > 0 && s.flushed == ""
    case _ => false
  }

  datatype Answer = Breaks | Was(event: Event)

  /** The events that a call can be. */
  predicate Matches(c: Call, e: Event) {
    match c
    case Start(k, _) => e == Refuses || (e.Starts? && e.priority == k)
    case Exit(code) => e == Exits(code)
    case Kill(p) => e == Refuses || e == Kills(p) || e == Exits(0)
    case Wait(p) => e == Refuses || e == Blocks(WaitChild(p)) || (e.Reaps? && (p < 0 || e.pid == p))
    case SetPriority(p, k) => e == Refuses || e == Ranks(p, k)
    case QueueCreate(n, _) => e == Refuses || (e.Creates? && e.capacity == n)
    case QueueDelete(q) => e == Refuses || e == Deletes(q)
    case QueueReset(q) => e == Refuses || e == Resets(q)
    case Send(q, m) => e == Refuses || e == Blocks(WaitQueue(q, m, true)) || e == Sends(q, m)
    case Receive(q) => e == Refuses || e == Blocks(WaitQueue(q, 0, false)) || (e.Receives? && e.queue == q)
    case WaitClock(clock, now) => e == if clock > now then Blocks(WaitTime(clock)) else Ticks
    case ReadLine(len) => e == Refuses || e == AwaitsLine || (e.ReadsLine? && e.len == len)
  }

  /** A call was this event, or it never comes to an end, or it leaves its buffer. */
  ghost predicate Answered(s: Sys, a: Answer, s': Sys) {
    a == Breaks || (Kept(s) && ActiveReady(s) && Did(s, a.event, s'))
  }

  /** Each process is in its list afterwards, unless the event was a kill that breaks that. */
  ghost predicate Continues(s: Sys, a: Answer, s': Sys) {
    a.Was? && KeepsLists(s, a.event) ==> Steady(s')
  }

  lemma AnsweredContinues(s: Sys, a: Answer, s': Sys)
    requires Steady(s) && Answered(s, a, s')
    ensures Continues(s, a, s')
  {
    hide Kept, Did, ActiveReady, PathWaits, Subtree, NoneDying;
    if a.Was? {
      EventKept(s, a.event, s');
    }
  }

  /** The active process is in user code. */
  ghost predicate InUserCode(s: Sys) { s.active in s.procs && s.procs[s.active].state == Sched(Nothing) }

  /** What a call may rely on: the active process is in user code, and when it looks for a process below its priority
      the system is sound and it is not idle. */
  ghost predicate MayCall(k: Kernel, c: Call)
    reads k, k.pids, k.pids.slots, k.qids, k.qids.slots
  {
    k.Able() && k.Running() && (Searches(k.S(), c) ==> Sound(k.S()) && k.active != IDLE)
  }

  /** The system call table: every call of a running process is an event of a run, unless it never ends. The system
      must be sound for the calls that search only. */
  method Dispatch(k: Kernel, c: Call) returns (a: Answer)
    requires MayCall(k, c)
    modifies k, k.pids, k.pids.slots, k.qids, k.qids.slots
    ensures Answered(old(k.S()), a, k.S()) && Continues(old(k.S()), a, k.S()) && (a.Was? ==> k.Pools())
    ensures a.Was? ==> Matches(c, a.event)
  {
    hide Answered, Continues, Sound, Steady, ActiveReady, WaitBlocks, Subtree;
    ghost var s := k.S();
    match c {
      case Start(priority, memory) => a := DoStart(k, priority, memory);
      case Exit(code) => a := DoExit(k, code);
      case Kill(pid) => a := DoKill(k, pid);
      case Wait(pid) => a := DoWait(k, pid);
      case SetPriority(pid, priority) => a := DoSetPriority(k, pid, priority);
      case QueueCreate(capacity, memory) => a := DoCreate(k, capacity, memory);
      case QueueDelete(q) => a := DoDelete(k, q);
      case QueueReset(q) => a := DoReset(k, q);
      case Send(q, m) => a := DoSend(k, q, m);
      case Receive(q) => a := DoReceive(k, q);
      case WaitClock(clock, now) => a := DoWaitClock(k, clock, now);
      case ReadLine(len) => a := DoRead(k, len);
    }
    AnsweredContinues(s, a, k.S());
  }

  method DoStart(k: Kernel, priority: int, memory: bool) returns (a: Answer)
    requires k.Able() && k.Running()
    modifies k, k.pids, k.pids.slots
    ensures Answered(old(k.S()), a, k.S()) && k.Pools()
    ensures a.Was? ==> Matches(Start(priority, memory), a.event)
  {
    hide Sound, Kept, GoesOn, Born, Urgent, AllUsed;
    ghost var s := k.S();
    StartKnown(s);
    var pid := k.Start(priority, memory);
    a := Was(if pid == -1 then Refuses else Starts(pid, priority));
  }

  method DoExit(k: Kernel, code: int) returns (a: Answer)
    requires k.Valid() && k.active != IDLE
    modifies k, k.pids, k.pids.slots
    ensures Answered(old(k.S()), a, k.S()) && (a.Was? ==> k.Pools())
    ensures a.Was? ==> Matches(Exit(code), a.event)
  {
    hide Sound, Kept, Exited, ExitSafe, WalksEnd;
    ghost var s := k.S();
    ActiveAlive(s);
    var ends := k.Exit(code);
    a := if ends then Was(Exits(code)) else Breaks;
  }

  method DoKill(k: Kernel, pid: int) returns (a: Answer)
    requires MayCall(k, Kill(pid))
    modifies k, k.pids, k.pids.slots
    ensures Answered(old(k.S()), a, k.S()) && (a.Was? ==> k.Pools())
    ensures a.Was? ==> Matches(Kill(pid), a.event)
  {
    hide Sound, Kept, Steady, Subtree, Answered, Manned;
    if pid == k.active && pid != IDLE {
      a := DoExit(k, 0);
    } else {
      MannedIfSound(k.S());
      a := DoKillOther(k, pid);
    }
  }

  lemma MannedIfSound(s: Sys)
    ensures Sound(s) ==> Manned(s)
  {
    if Sound(s) {
      IdleLast(s);
    }
  }

  method DoKillOther(k: Kernel, pid: int) returns (a: Answer)
    requires k.Able() && (pid == IDLE || pid != k.active)
    requires pid != IDLE && k.active in Subtree(k.S(), pid) ==> Manned(k.S())
    modifies k, k.pids, k.pids.slots
    ensures Answered(old(k.S()), a, k.S()) && (a.Was? ==> k.Pools())
    ensures a.Was? ==> Matches(Kill(pid), a.event)
  {
    hide Sound, Kept, AfterKill, AwayAfterKill, WalksEnd, KillSafe, AwaySafe, Subtree, Manned;
    if pid == IDLE {
      return Was(Refuses);
    }
    var r, fate := k.Kill(pid);
    a := if r == -1 then Was(Refuses) else if fate == Hangs then Breaks else Was(Kills(pid));
  }

  method DoWait(k: Kernel, pid: int) returns (a: Answer)
    requires MayCall(k, Wait(pid))
    modifies k, k.pids, k.pids.slots
    ensures Answered(old(k.S()), a, k.S()) && k.Pools()
    ensures a.Was? ==> Matches(Wait(pid), a.event)
  {
    hide Sound, Kept, Steady, GoesOn, HasBlocked, Freed, Answered, FirstChild, WaitBlocks;
    ghost var s := k.S();
    var r := k.Wait(pid);
    a := Was(if r == Failed then Refuses else if r == Blocked then Blocks(WaitChild(pid)) else Reaps(r.pid, r.code));
    WaitAnswered(s, pid, r, k.S());
  }

  lemma WaitAnswered(s: Sys, pid: int, r: Outcome, s': Sys)
    requires Steady(s) && InUserCode(s) && (WaitBlocks(s.procs, s.active, pid) ==> s.active != IDLE)
    requires var c := FirstChild(s.procs, s.procs[s.active].children, pid);
             if s.procs[s.active].children == [] || (c == NOBODY && pid >= 0) then r == Failed && s' == s
             else if WaitBlocks(s.procs, s.active, pid) then r == Blocked && HasBlocked(s, WaitChild(pid), s')
             else c in s.procs && s.procs[c].state.Zombie? && r == Reaped(c, s.procs[c].state.code) && s' == Freed(s, c)
    ensures Answered(s, Was(if r == Failed then Refuses
                            else if r == Blocked then Blocks(WaitChild(pid))
                            else Reaps(r.pid, r.code)), s')
    ensures r.Reaped? && pid >= 0 ==> r.pid == pid
  {
    hide HasBlocked, Freed, FirstChild;
    ChildFound(s, pid);
    NobodyOnly(s);
  }

  method DoSetPriority(k: Kernel, pid: int, priority: int) returns (a: Answer)
    requires k.Able() && k.Running()
    modifies k
    ensures Answered(old(k.S()), a, k.S()) && k.Pools()
    ensures a.Was? ==> Matches(SetPriority(pid, priority), a.event)
  {
    hide Sound, Kept, Ranked, PrioritySafe;
    ghost var s := k.S();
    RanksInRange(s, pid);
    var r := k.SetPriority(pid, priority);
    a := Was(if r == -1 || r == priority then Refuses else Ranks(pid, priority));
  }

  lemma RanksInRange(s: Sys, p: int)
    requires Kept(s)
    ensures p in s.procs ==> 0 <= s.procs[p].priority < MAX_PRIORITY
  {
    assert p in s.procs ==> HasHome(s, p);
  }

  method DoCreate(k: Kernel, capacity: int, memory: bool) returns (a: Answer)
    requires k.Able() && k.Running()
    modifies k, k.qids, k.qids.slots
    ensures Answered(old(k.S()), a, k.S()) && k.Pools()
    ensures a.Was? ==> Matches(QueueCreate(capacity, memory), a.event)
  {
    hide Sound, Kept, GoesOn, FreshQueue, SetQueue, AllQueuesUsed;
    ghost var s := k.S();
    var qid := k.QueueCreate(capacity, memory);
    a := Was(if qid == -1 then Refuses else Creates(qid, capacity));
  }

  method DoDelete(k: Kernel, q: int) returns (a: Answer)
    requires k.Able() && k.Running()
    modifies k, k.qids, k.qids.slots
    ensures Answered(old(k.S()), a, k.S()) && k.Pools()
    ensures a.Was? ==> Matches(QueueDelete(q), a.event)
  {
    hide Sound, Kept, GoesOn, WasResetTo, Deleted;
    ghost var s := k.S();
    var r := k.QueueDelete(q);
    a := Was(if r == Failed then Refuses else Deletes(q));
  }

  method DoReset(k: Kernel, q: int) returns (a: Answer)
    requires k.Able() && k.Running()
    modifies k
    ensures Answered(old(k.S()), a, k.S()) && k.Pools()
    ensures a.Was? ==> Matches(QueueReset(q), a.event)
  {
    hide Sound, Kept, GoesOn, WasResetTo, Reset;
    ghost var s := k.S();
    var r := k.QueueReset(q);
    a := Was(if r == Failed then Refuses else Resets(q));
  }

  method DoSend(k: Kernel, q: int, m: int) returns (a: Answer)
    requires MayCall(k, Send(q, m))
    modifies k
    ensures Answered(old(k.S()), a, k.S()) && k.Pools()
    ensures a.Was? ==> Matches(Send(q, m), a.event)
  {
    hide Sound, Kept, Steady, GoesOn, HasSent, Answered;
    ghost var s := k.S();
    var r := k.Send(q, m);
    a := Was(if r == Failed then Refuses else if r == Blocked then Blocks(WaitQueue(q, m, true)) else Sends(q, m));
    SendAnswered(s, q, m, r, k.S());
  }

  lemma SendAnswered(s: Sys, q: int, m: int, r: Outcome, s': Sys)
    requires Steady(s) && InUserCode(s) && (Searches(s, Send(q, m)) ==> s.active != IDLE)
    requires if q in s.queues then HasSent(s, q, m, r, s') else r == Failed && s' == s
    ensures Answered(s, Was(if r == Failed then Refuses
                            else if r == Blocked then Blocks(WaitQueue(q, m, true))
                            else Sends(q, m)), s')
  {
    hide Kept, HasBlocked, HasHanded, Written;
    if r == Blocked {
      SendFits(s, q, m);
    }
  }

  method DoReceive(k: Kernel, q: int) returns (a: Answer)
    requires MayCall(k, Receive(q))
    modifies k
    ensures Answered(old(k.S()), a, k.S()) && k.Pools()
    ensures a.Was? ==> Matches(Receive(q), a.event)
  {
    hide Sound, Kept, Steady, GoesOn, HasReceived, Answered;
    ghost var s := k.S();
    var r := k.Receive(q);
    a := Was(if r == Failed then Refuses else if r.Received? then Receives(q, r.message)
             else Blocks(WaitQueue(q, 0, false)));
    ReceiveAnswered(s, q, r, k.S());
  }

  lemma ReceiveAnswered(s: Sys, q: int, r: Outcome, s': Sys)
    requires Steady(s) && InUserCode(s) && (Searches(s, Receive(q)) ==> s.active != IDLE)
    requires if q in s.queues then HasReceived(s, q, r, s') else r == Failed && s' == s
    ensures Answered(s, Was(if r == Failed then Refuses
                            else if r.Received? then Receives(q, r.message)
                            else Blocks(WaitQueue(q, 0, false))), s')
  {
    hide Kept, HasBlocked, HasRefilled, Read;
    if r == Blocked {
      ReceiveFits(s, q);
    } else if r.Received? {
      assert HasReceived(s, q, Received(r.message), s');
    }
  }

  method DoWaitClock(k: Kernel, clock: nat, now: nat) returns (a: Answer)
    requires MayCall(k, WaitClock(clock, now))
    modifies k
    ensures Answered(old(k.S()), a, k.S()) && (a.Was? ==> k.Pools())
    ensures a.Was? ==> Matches(WaitClock(clock, now), a.event)
  {
    hide Sound, Kept, Steady, GoesOn, Homed, HasBlocked, InsertionEnds, Successor, Answered;
    ghost var s := k.S();
    var r := k.WaitClock(clock, now);
    a := if r == Hung then Breaks else Was(if r == Blocked then Blocks(WaitTime(clock)) else Ticks);
    ClockAnswered(s, clock, now, r, k.S());
  }

  lemma ClockAnswered(s: Sys, clock: nat, now: nat, r: Outcome, s': Sys)
    requires Steady(s) && InUserCode(s) && (clock > now ==> s.active != IDLE)
    requires r == Hung <==> clock > now && !InsertionEnds(s.procs, s.sleepers, s.active, clock)
    requires clock <= now ==> r == Done && Homed(s) && s.active in s.procs && s' == s.(active := Successor(s, NOBODY))
    requires clock > now && r != Hung ==> r == Blocked && HasBlocked(s, WaitTime(clock), s')
    ensures Answered(s, if r == Hung then Breaks else Was(if r == Blocked then Blocks(WaitTime(clock)) else Ticks), s')
  {
    hide HasBlocked, Successor;
    InsertionEndsAtHead(s.procs, s.sleepers, s.active, clock);
    if r == Blocked {
      SleepFits(s, clock);
    }
  }

  method DoRead(k: Kernel, len: nat) returns (a: Answer)
    requires MayCall(k, ReadLine(len))
    modifies k
    ensures Answered(old(k.S()), a, k.S()) && k.Pools()
    ensures a.Was? ==> Matches(ReadLine(len), a.event)
  {
    hide Sound, Kept, Steady, GoesOn, HasBlocked, Answered, IsLine;
    ghost var s := k.S();
    var r, text := k.ConsRead(len);
    a := Was(if len == 0 then Refuses else if r == Blocked then AwaitsLine else ReadsLine(len, text));
    ReadAnswered(s, len, text, r, k.S());
  }

  lemma ReadAnswered(s: Sys, len: nat, text: seq<char>, r: Outcome, s': Sys)
    requires Steady(s) && InUserCode(s) && (Searches(s, ReadLine(len)) ==> s.active != IDLE)
    requires len == 0 ==> s' == s && r == Done
    requires len > 0 && s.flushed != "" ==>
        r == Done && IsLine(s.flushed, len, text, s'.flushed) && s' == s.(flushed := s'.flushed)
    requires len > 0 && s.flushed == "" ==> r == Blocked && HasBlocked(s.(armed := true), WaitCons, s')
    ensures Answered(s, Was(if len == 0 then Refuses else if r == Blocked then AwaitsLine else ReadsLine(len, text)),
        s')
  {
    hide HasBlocked, Fits;
    if s.flushed == "" && len > 0 {
      NoReaders(s);
      SetConsoleKept(s, "", true);
      ReadFits(s.(armed := true));
    }
  }

  // ----- interrupts, and what follows a blocked call -----

  datatype Cause = Timer | Clock(clock: int) | Line(line: seq<char>) | Woken

  /** A timer tick for the scheduler, one for the sleepers, a line from the keyboard, or the rest of a call that had
      blocked. The active process need not be the most urgent one. */
  method Interrupt(k: Kernel, c: Cause) returns (a: Answer)
    requires k.Able() && (c.Line? ==> |c.line| <= LINE_BUFFER_CAP) && (c.Woken? ==> ReapsZombie(k.procs, k.active))
    modifies k, k.pids, k.pids.slots
    ensures Answered(old(k.S()), a, k.S()) && (a == Breaks <==> c.Line? && |old(k.flushed)| == ALL_BUFFER_CAP)
    ensures Continues(old(k.S()), a, k.S()) && k.Able()
  {
    hide Answered, Continues, Sound, Steady, GoesOn, ReapsZombie;
    ghost var s := k.S();
    match c {
      case Timer => a := DoTick(k);
      case Clock(clock) => a := DoTime(k, clock);
      case Line(line) => a := DoFlush(k, line);
      case Woken => a := DoContinue(k);
    }
    AnsweredContinues(s, a, k.S());
  }

  method DoTick(k: Kernel) returns (a: Answer)
    requires k.Able()
    modifies k
    ensures Answered(old(k.S()), a, k.S()) && a != Breaks && k.Able()
  {
    hide Sound, Kept, GoesOn, Successor;
    k.Tick();
    a := Was(Ticks);
  }

  method DoTime(k: Kernel, clock: int) returns (a: Answer)
    requires k.Able()
    modifies k
    ensures Answered(old(k.S()), a, k.S()) && a != Breaks && k.Able()
  {
    hide Sound, Kept, GoesOn, WasTimed;
    k.TimeHandler(clock);
    a := Was(Passes(clock));
  }

  method DoFlush(k: Kernel, line: seq<char>) returns (a: Answer)
    requires k.Able() && |line| <= LINE_BUFFER_CAP
    modifies k
    ensures Answered(old(k.S()), a, k.S()) && (a == Breaks <==> |old(k.flushed)| == ALL_BUFFER_CAP) && k.Able()
  {
    hide Sound, Kept, GoesOn, WasFlushed;
    FlushedFits(k.S());
    var room := if |k.flushed| < ALL_BUFFER_CAP then ALL_BUFFER_CAP - |k.flushed| - 1 else 0;
    var inside := k.ConsFlush(line);
    a := if inside then Was(Flushes(Truncated(line, room) + ['\n'])) else Breaks;
  }

  method DoContinue(k: Kernel) returns (a: Answer)
    requires k.Able() && ReapsZombie(k.procs, k.active)
    modifies k, k.pids, k.pids.slots
    ensures Answered(old(k.S()), a, k.S()) && a != Breaks && k.Able()
  {
    hide Sound, Kept, GoesOn, Freed, Quiet;
    var resume := k.procs[k.active].state.resume;
    var r := k.Continue();
    a := Was(if resume == Nothing then Refuses else if resume.ReapChild? then ReapsLater(r.pid, r.code)
        else Resumes(r));
  }
}
