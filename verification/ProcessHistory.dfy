/** Whole runs of the process kernel: what every entry keeps, safe or not, and the life of a zombie. */
module ProcessHistory {
  import opened Lists
  import opened Processes
  import opened ProcessTree
  import opened SleepWalks
  import opened ProcessOrder
  import opened MessageQueues
  import opened ProcessState
  import opened ProcessSteps
  import opened ProcessLife
  import opened ProcessDeath
  import opened ProcessSwitch
  import opened ProcessAway
  import opened ProcessQueues
  import opened ProcessSteady
  import opened ProcessKernel
  import opened ProcessRuns

  /** What an entry into the kernel can be. */
  datatype Event =
    | Starts(pid: int, priority: int)
    | Exits(code: int)
    | Kills(pid: int)
    | Reaps(pid: int, code: int)
    | ReapsLater(pid: int, code: int)
    | Resumes(answer: Outcome)
    | Ranks(pid: int, priority: int)
    | Blocks(state: State)
    | Creates(queue: int, capacity: int)
    | Resets(queue: int)
    | Deletes(queue: int)
    | Sends(queue: int, message: int)
    | Receives(queue: int, message: int)
    | ReadsLine(len: nat, text: seq<char>)
    | AwaitsLine
    | Flushes(text: seq<char>)
    | Passes(clock: int)
    | Ticks
    | Refuses

  /** An event takes one system to another: what the methods of the kernel promise, without asking that the active
      process is the most urgent one. */
  ghost predicate Did(s: Sys, e: Event, s': Sys)
    requires Kept(s) && ActiveReady(s)
  {
    match e
    case Starts(p, k) => DidStart(s, p, k, s')
    case Exits(code) => s.active != IDLE && s' == Exited(s, code)
    case Kills(p) => DidKill(s, p, s')
    case Reaps(c, code) => IsZombie(s.procs, c, code) && s.procs[c].parent == s.active
        && s.procs[s.active].state == Sched(Nothing) && s' == Freed(s, c)
    case ReapsLater(c, code) => IsZombie(s.procs, c, code) && s.procs[s.active].state == Sched(ReapChild(c))
        && s' == Freed(Quiet(s), c)
    case Resumes(r) => !s.procs[s.active].state.resume.ReapChild? && r == AnswerOf(s.procs[s.active].state.resume)
        && s' == Quiet(s)
    case Ranks(p, k) => p in s.procs && !s.procs[p].state.Zombie? && 0 <= k < MAX_PRIORITY && k != s.procs[p].priority
        && s' == Ranked(s, p, k)
    case Blocks(state) => DidBlock(s, state, s')
    case Creates(q, n) => q !in s.queues && exists qu :: FreshQueue(qu, n) && s' == SetQueue(s, q, qu, [], [])
    case Resets(q) => q in s.queues && WasResetTo(s, q, Reset(s, q), s')
    case Deletes(q) => q in s.queues && WasResetTo(s, q, Deleted(s, q), s')
    case Sends(q, m) => q in s.queues && s.queues[q].length != s.queues[q].capacity && HasSent(s, q, m, Done, s')
    case Receives(q, m) => q in s.queues && s.queues[q].length != 0 && HasReceived(s, q, Received(m), s')
    case ReadsLine(len, text) => len > 0 && s.flushed != "" && IsLine(s.flushed, len, text, s'.flushed)
        && s' == s.(flushed := s'.flushed)
    case AwaitsLine => s.flushed == "" && DidBlock(s.(armed := true), WaitCons, s')
    case Flushes(text) => |s.flushed| + |text| <= ALL_BUFFER_CAP && WasFlushed(s, text, s')
    case Passes(clock) => WasTimed(s, clock, s')
    case Ticks => s' == s.(active := Successor(s, NOBODY))
    case Refuses => s' == s
  }

  /** What a call that had blocked gives its caller when it goes on. */
  function AnswerOf(resume: Resume): Outcome {
    match resume
    case Handed(_, m) => Received(m)
    case WasReset => Failed
    case ReadAgain => Retry
    case _ => Done
  }

  predicate IsZombie(ps: Procs, z: int, code: int) { z in ps && ps[z].state == Zombie(code) }

  ghost predicate DidStart(s: Sys, p: int, k: int, s': Sys) {
    && p !in s.procs && p > 0 && 0 <= k < MAX_PRIORITY <= |s.rings| && s.active in s.procs && s.active in s.depth
    && s' == Urgent(Born(s, p, k), p)
  }

  ghost predicate DidKill(s: Sys, p: int, s': Sys) {
    && p in s.procs && p != IDLE && p != s.active && !s.procs[p].state.Zombie?
    && if s.active in Subtree(s, p) then AwayAfterKill(s, p, s') else AfterKill(s, p, 0, s')
  }

  ghost predicate DidBlock(s: Sys, state: State, s': Sys) {
    && s.active in s.procs && s.active != IDLE && s.procs[s.active].state == Sched(Nothing)
    && !state.Sched? && !state.Dying? && !state.Zombie?
    && (state.WaitChild? ==> WaitBlocks(s.procs, s.active, state.pid))
    && Fits(s, s.procs[s.active], s.procs[s.active].(state := state)) && HasBlocked(s, state, s')
  }

  /** After an event each process is in the list its stored state names: only a kill can break that, which switches
      away from a process that was neither the active one nor waiting for a child. */
  ghost predicate KeepsLists(s: Sys, e: Event) {
    e.Kills? && s.active in Subtree(s, e.pid) ==> PathWaits(s, e.pid)
  }

  // ----- zombies in one step -----

  predicate IsDead(pc: Proc) { pc.state.Zombie? || pc.state.Dying? }

  /** The zombies are those that were there before, with the same exit codes, except those that are gone. */
  ghost predicate ZombiesStay(ps: Procs, ps': Procs, gone: set<int>) {
    && (forall z :: z in ps' && IsDead(ps'[z]) ==> z in ps && ps[z].state == ps'[z].state)
    && (forall z :: z in ps && ps[z].state.Zombie? && z !in gone ==> z in ps' && ps'[z].state == ps[z].state)
  }

  /** The zombies that an event may take out of the system: the one it reaps, or those under a process that it kills. */
  ghost function Taken(s: Sys, e: Event): set<int> {
    match e
    case Exits(_) => Subtree(s, s.active) - {s.active}
    case Kills(p) => Subtree(s, p) - {p}
    case Reaps(c, _) => {c}
    case ReapsLater(c, _) => {c}
    case _ => {}
  }

  /** The events in which a process dies. */
  ghost predicate Dies(s: Sys, e: Event, z: int, code: int) {
    || (e == Exits(code) && z == s.active)
    || (e.Kills? && code == 0 && (z == e.pid || (z == s.active && z in Subtree(s, e.pid))))
  }

  /** A process that is a zombie afterwards was one before, with the same exit code, or has died now; one that was a
      zombie before still is, with the same exit code, unless the event takes it out. */
  ghost predicate OnlyDeadAreZombies(s: Sys, e: Event, s': Sys) {
    && (forall z :: z in s'.procs && s'.procs[z].state.Zombie? ==>
          (z in s.procs && s.procs[z].state == s'.procs[z].state) || Dies(s, e, z, s'.procs[z].state.code))
    && (forall z :: z in s.procs && s.procs[z].state.Zombie? && z !in Taken(s, e) ==>
          z in s'.procs && s'.procs[z].state == s.procs[z].state)
  }

  lemma WokenZombies(s: Sys, s': Sys, l: seq<int>, r: Resume)
    requires OnlyWoken(s, s', l, r) && forall p :: p in l ==> p in s.procs && !s.procs[p].state.Zombie?
    ensures ZombiesStay(s.procs, s'.procs, {})
  {
  }

  /** The waking of a list, whoever is active. */
  lemma WakeList(s: Sys, l: seq<int>, r: Resume)
    requires Kept(s) && NoDups(l) && !r.ReapChild? && forall p :: p in l ==> p in s.procs && !s.procs[p].state.Zombie?
    ensures Kept(WakeEach(s, l, r)) && OnlyWoken(s, WakeEach(s, l, r), l, r)
    ensures ZombiesStay(s.procs, WakeEach(s, l, r).procs, {})
  {
    forall p | p in l
      ensures s.procs[p].priority <= MAX_PRIORITY
    {
      assert HasHome(s, p);
    }
    WakeEachKept(s, l, r, MAX_PRIORITY);
    WokenZombies(s, WakeEach(s, l, r), l, r);
  }

  lemma StartKept(s: Sys, p: int, k: int, s': Sys)
    requires Kept(s) && ActiveReady(s) && DidStart(s, p, k, s')
    ensures Kept(s') && ZombiesStay(s.procs, s'.procs, {})
  {
    BornKept(s, p, k);
    EnterRing(s, p, Newborn(s.active, k));
    UrgentKept(Born(s, p, k), p);
  }

  lemma KilledZombies(s: Sys, p: int, code: int)
    requires Kept(s) && p in s.procs && !s.procs[p].state.Zombie?
    ensures HasHome(s, p) && p in Killed(s, p, code).procs && Killed(s, p, code).procs[p].state == Zombie(code)
    ensures ZombiesBut(s.procs, Killed(s, p, code).procs, p, Subtree(s, p) - {p})
  {
    hide Homed, Tree, Queued, SleepSorted, Subtree, Killed;
    KilledKept(s, p, code);
    KilledProcs(s, p, code, p);
    var r := Killed(s, p, code);
    forall z | z in s.procs && z !in Subtree(s, p) - {p} && z != p
      ensures z in r.procs && r.procs[z] == s.procs[z]
    {
      KilledProcs(s, p, code, z);
    }
  }

  /** The same with one zombie more. */
  ghost predicate ZombiesBut(ps: Procs, ps': Procs, p: int, gone: set<int>) {
    && (forall z :: z in ps' && IsDead(ps'[z]) && z != p ==> z in ps && ps[z].state == ps'[z].state)
    && (forall z :: z in ps && ps[z].state.Zombie? && z !in gone ==> z in ps' && ps'[z].state == ps[z].state)
  }

  lemma ButNoneDying(ps: Procs, ps': Procs, p: int, gone: set<int>)
    requires ZombiesBut(ps, ps', p, gone) && NoneDying(ps) && (p in ps' ==> !ps'[p].state.Dying?)
    ensures NoneDying(ps')
  {
  }

  lemma StayBut(ps: Procs, t: Procs, ps': Procs, p: int, gone: set<int>)
    requires ZombiesStay(ps, t, {}) && ZombiesBut(t, ps', p, gone)
    ensures ZombiesBut(ps, ps', p, gone)
  {
  }

  /** Telling the parent makes nobody a zombie. */
  lemma ToldZombies(s: Sys, p: int)
    requires Kept(s) && p in s.procs
    ensures Kept(ParentTold(s, p)) && p in ParentTold(s, p).procs && ZombiesStay(s.procs, ParentTold(s, p).procs, {})
    ensures ParentTold(s, p).active == s.active && Subtree(ParentTold(s, p), p) == Subtree(s, p)
    ensures ParentTold(s, p).procs.Keys == s.procs.Keys && ParentTold(s, p).procs[p] == s.procs[p]
  {
    ToldKept(s, p);
  }

  lemma ExitKept(s: Sys, code: int)
    requires Kept(s) && ActiveReady(s)
    ensures Kept(Exited(s, code)) && OnlyDeadAreZombies(s, Exits(code), Exited(s, code))
    ensures NoneDying(s.procs) ==> NoneDying(Exited(s, code).procs)
  {
    var p := s.active;
    hide Kept, ParentTold, Killed, Subtree, ZombiesStay;
    KeptHomed(s);
    ToldZombies(s, p);
    var t := ParentTold(s, p);
    KilledKept(t, p, code);
    ExitedIs(s, code);
    ActiveOnly(Killed(t, p, code), Exited(s, code).active);
    KilledZombies(t, p, code);
    StayBut(s.procs, t.procs, Exited(s, code).procs, p, Subtree(s, p) - {p});
    if NoneDying(s.procs) {
      ButNoneDying(s.procs, Exited(s, code).procs, p, Subtree(s, p) - {p});
    }
  }

  lemma ExitedIs(s: Sys, code: int)
    requires Kept(s) && ActiveReady(s)
    ensures s.active in ParentTold(s, s.active).procs && HasHome(ParentTold(s, s.active), s.active)
    ensures Exited(s, code) == Killed(ParentTold(s, s.active), s.active, code).(active := Exited(s, code).active)
  {
    ToldKept(s, s.active);
    KilledKept(ParentTold(s, s.active), s.active, code);
  }

  lemma KillKept(s: Sys, p: int, s': Sys)
    requires Kept(s) && NoneDying(s.procs) && ActiveReady(s) && DidKill(s, p, s')
    ensures (Kept(s') <==> KeepsLists(s, Kills(p))) && NoneDying(s'.procs) && OnlyDeadAreZombies(s, Kills(p), s')
  {
    hide Kept, ParentTold, Killed, Subtree, ZombiesStay, ZombiesBut, NoneDying, PathWaits;
    KeptHomed(s);
    ToldZombies(s, p);
    var t := ParentTold(s, p);
    if s.active in Subtree(s, p) {
      AwayKillKept(s, p, s');
      AwayZombies(s, p, s');
    } else {
      KilledZombies(t, p, 0);
      StayBut(s.procs, t.procs, s'.procs, p, Subtree(s, p) - {p});
      ButNoneDying(s.procs, s'.procs, p, Subtree(s, p) - {p});
      DeadIsZombie(s, p, s');
    }
  }

  lemma DeadIsZombie(s: Sys, p: int, s': Sys)
    requires ZombiesBut(s.procs, s'.procs, p, Subtree(s, p) - {p}) && p in s'.procs && s'.procs[p].state == Zombie(0)
    ensures OnlyDeadAreZombies(s, Kills(p), s')
  {
    hide Subtree;
  }

  lemma AwayZombies(s: Sys, p: int, s': Sys)
    requires AwayAfterKill(s, p, s') && !s.procs[p].state.Zombie? && NoneDying(s.procs) && s.active in Subtree(s, p)
    ensures OnlyDeadAreZombies(s, Kills(p), s')
  {
    hide Kept, Subtree, SwitchedTo, SwitchedAway, ParentTold;
    KeptHomed(s);
    ToldZombies(s, p);
    ToldPath(s, p);
    var t := ParentTold(s, p);
    var r :| SwitchedAway(t, p, r) && s' == AsStored(r);
    forall z | z in s'.procs && s'.procs[z].state.Zombie?
      ensures (z in s.procs && s.procs[z].state == s'.procs[z].state) || Dies(s, Kills(p), z, s'.procs[z].state.code)
    {
      AwayZombie(t, p, r, z);
    }
    forall z | z in s.procs && s.procs[z].state.Zombie? && z !in Taken(s, Kills(p))
      ensures z in s'.procs && s'.procs[z].state == s.procs[z].state
    {
      AwayZombie(t, p, r, z);
    }
  }

  lemma AwayZombie(t: Sys, p: int, r: Sys, z: int)
    requires SwitchedAway(t, p, r) && !t.procs[p].state.Zombie? && Kept(t) && NoneDying(t.procs)
    requires t.active in Subtree(t, p)
    ensures z in r.procs && Stored(r.procs[z]).state.Zombie? ==>
              z in t.procs && (t.procs[z].state == Stored(r.procs[z]).state
                  || (z == t.active && Stored(r.procs[z]).state == Zombie(0)))
    ensures z in t.procs && t.procs[z].state.Zombie? && z !in Subtree(t, p) - {p} ==>
              z in r.procs && Stored(r.procs[z]).state == t.procs[z].state
  {
    hide Homed, Queued, SleepSorted, SwitchedTo, Subtree;
    DyingAre(t, p, r, z);
    if z in t.procs {
      assert LeftAs(t, p, r, z);
      UnderReached(t, p, z);
    }
  }

  lemma UnderReached(s: Sys, p: int, z: int)
    requires Tree(s.procs, s.depth) && p in s.procs && z in s.procs
    ensures z in ReachedBy(s, p) ==> z in Subtree(s, p)
  {
    ReachedBelow(s.procs, s.depth, p, s.active);
  }

  lemma BlockKept(s: Sys, state: State, s': Sys)
    requires Kept(s) && ActiveReady(s) && DidBlock(s, state, s')
    ensures Kept(s') && ZombiesStay(s.procs, s'.procs, {})
  {
    var pc := s.procs[s.active].(state := state);
    MoveKept(s, s.active, pc);
    MoveActive(s, s.active, pc);
    ActiveOnly(Move(s, s.active, pc), s'.active);
  }

  lemma FreeKept(s: Sys, c: int)
    requires Kept(s) && c in s.procs && s.procs[c].state.Zombie? && s.procs[c].parent in s.procs
    requires !(s.procs[s.procs[c].parent].state.Sched? && s.procs[s.procs[c].parent].state.resume == ReapChild(c))
    ensures Kept(Freed(s, c)) && ZombiesStay(s.procs, Freed(s, c).procs, {c}) && c !in Freed(s, c).procs
  {
    NotClaimed(s, c);
    FreedKept(s, c);
  }

  lemma ReapLaterKept(s: Sys, c: int)
    requires Kept(s) && ActiveReady(s) && s.procs[s.active].state == Sched(ReapChild(c)) && c in s.procs
    requires s.procs[c].state.Zombie?
    ensures Kept(Freed(Quiet(s), c)) && ZombiesStay(s.procs, Freed(Quiet(s), c).procs, {c})
    ensures c !in Freed(Quiet(s), c).procs
  {
    assert Branch(s.procs, s.depth, s.active);
    ChildOf(s.procs, s.depth, s.active, c);
    QuietKept(s);
    FreeKept(Quiet(s), c);
  }

  lemma RankKept(s: Sys, p: int, k: int)
    requires Kept(s) && p in s.procs && 0 <= k < MAX_PRIORITY
    ensures Kept(Ranked(s, p, k)) && ZombiesStay(s.procs, Ranked(s, p, k).procs, {})
  {
    RerankedKept(s, p, k);
    ActiveOnly(Reranked(s, p, k), Ranked(s, p, k).active);
  }

  lemma ResetsKept(s: Sys, q: int, s': Sys)
    requires Kept(s) && q in s.queues && (WasResetTo(s, q, Reset(s, q), s') || WasResetTo(s, q, Deleted(s, q), s'))
    ensures Kept(s') && ZombiesStay(s.procs, s'.procs, {})
  {
    var l := s.queues[q].waiters;
    Waiting(s, InQueue(q));
    WakeList(s, l, WasReset);
    ResetKept(s, q);
    hide WakeEach;
    if WasResetTo(s, q, Reset(s, q), s') {
      var top :| s' == Urgent(Reset(s, q), top);
      UrgentKept(Reset(s, q), top);
    } else {
      var top :| s' == Urgent(Deleted(s, q), top);
      UrgentKept(Deleted(s, q), top);
    }
  }

  lemma CreateKept(s: Sys, q: int, n: int, s': Sys)
    requires Kept(s) && ActiveReady(s) && Did(s, Creates(q, n), s')
    ensures Kept(s') && s'.procs == s.procs
  {
    var qu :| FreshQueue(qu, n) && s' == SetQueue(s, q, qu, [], []);
    NewQueueKept(s, q, qu);
  }

  lemma SendKept(s: Sys, q: int, message: int, s': Sys)
    requires Kept(s) && q in s.queues && s.queues[q].length != s.queues[q].capacity && HasSent(s, q, message, Done, s')
    ensures Kept(s') && ZombiesStay(s.procs, s'.procs, {})
  {
    assert QueueSound(s, q);
    if s.queues[q].length == 0 && s.queues[q].waiters != [] {
      HandKept(s, q, message, s');
    } else {
      NoWaiters(s, q);
      WrittenKept(s, q, message);
    }
  }

  lemma HandKept(s: Sys, q: int, message: int, s': Sys)
    requires Kept(s) && q in s.queues && s.queues[q].length == 0 && HasHanded(s, q, message, s')
    ensures Kept(s') && ZombiesStay(s.procs, s'.procs, {})
  {
    hide Queued, SleepSorted, Tree;
    var w :| LastOfHighest(s.procs, s.queues[q].waiters, w) && s' == Urgent(HandedTo(s, q, w, message), w);
    Waiting(s, InQueue(q));
    HandedKept(s, q, w, message);
    WokenZombies(s, Wake(s, w, Handed(q, message)), [w], Handed(q, message));
    UrgentKept(HandedTo(s, q, w, message), w);
  }

  lemma ReceiveKept(s: Sys, q: int, message: int, s': Sys)
    requires Kept(s) && q in s.queues && s.queues[q].length != 0 && HasReceived(s, q, Received(message), s')
    ensures Kept(s') && ZombiesStay(s.procs, s'.procs, {})
  {
    hide Homed, Tree, SleepSorted, HasRefilled, OnlyWoken, WaitsRightly;
    assert QueueSound(s, q);
    if s.queues[q].length == s.queues[q].capacity && s.queues[q].waiters != [] {
      RefillKept(s, q, s');
    } else {
      NoWaiters(s, q);
      ReadKept(s, q);
    }
  }

  lemma RefillKept(s: Sys, q: int, s': Sys)
    requires Kept(s) && q in s.queues && s.queues[q].length == s.queues[q].capacity && HasRefilled(s, q, s')
    ensures Kept(s') && ZombiesStay(s.procs, s'.procs, {})
  {
    hide Kept, OnlyWoken, Wake, ZombiesStay;
    var w :| LastOfHighest(s.procs, s.queues[q].waiters, w) && w in s.procs && s.procs[w].state.WaitQueue?
             && s' == Urgent(Wake(Refilled(s, q, w), w, Accepted), w);
    RefilledKept(s, q, w);
    WokenZombies(Refilled(s, q, w), Wake(Refilled(s, q, w), w, Accepted), [w], Accepted);
    UrgentKept(Wake(Refilled(s, q, w), w, Accepted), w);
  }

  lemma FlushKept(s: Sys, text: seq<char>, s': Sys)
    requires Kept(s) && |s.flushed| + |text| <= ALL_BUFFER_CAP && WasFlushed(s, text, s')
    ensures Kept(s') && ZombiesStay(s.procs, s'.procs, {})
  {
    Waiting(s, OnConsole);
    WakeList(s, s.cons, ReadAgain);
    ReadersGone(s);
    hide WakeEach;
    var top :| s' == Urgent(LineFlushed(s, text), top);
    SetConsoleKept(WakeEach(s, s.cons, ReadAgain), s.flushed + text, false);
    UrgentKept(LineFlushed(s, text), top);
  }

  lemma TimeKept(s: Sys, clock: int, s': Sys)
    requires Kept(s) && WasTimed(s, clock, s')
    ensures Kept(s') && ZombiesStay(s.procs, s'.procs, {})
  {
    var l := Due(s.procs, s.sleepers, clock);
    Waiting(s, Asleep);
    DuePrefix(s.procs, s.sleepers, clock);
    WakeList(s, l, Nothing);
    hide WakeEach;
    var top :| s' == Urgent(TimeCame(s, clock), top);
    UrgentKept(TimeCame(s, clock), top);
  }

  lemma AwaitKept(s: Sys, s': Sys)
    requires Kept(s) && ActiveReady(s) && Did(s, AwaitsLine, s')
    ensures Kept(s') && ZombiesStay(s.procs, s'.procs, {})
  {
    SetConsoleKept(s, "", true);
    BlockKept(s.(armed := true), WaitCons, s');
  }

  lemma LifeEventKept(s: Sys, e: Event, s': Sys)
    requires Steady(s) && ActiveReady(s) && Did(s, e, s')
    requires e.Starts? || e.Exits? || e.Kills? || e.Reaps? || e.ReapsLater? || e.Resumes? || e.Ranks? || e.Blocks?
    ensures (Kept(s') <==> KeepsLists(s, e)) && NoneDying(s'.procs) && OnlyDeadAreZombies(s, e, s')
  {
    hide Kept, ZombiesStay, OnlyDeadAreZombies, NoneDying;
    match e
    case Starts(p, k) => StartKept(s, p, k, s'); SameZombies(s, e, s');
    case Exits(code) => ExitKept(s, code);
    case Kills(p) => KillKept(s, p, s');
    case Reaps(c, code) => ParentAlive(s, c); FreeKept(s, c); SameZombies(s, e, s');
    case ReapsLater(c, code) => ReapLaterKept(s, c); SameZombies(s, e, s');
    case Resumes(_) => QuietKept(s); QuietZombies(s, e);
    case Ranks(p, k) => RankKept(s, p, k); SameZombies(s, e, s');
    case Blocks(state) => BlockKept(s, state, s'); SameZombies(s, e, s');
  }

  lemma QueueEventKept(s: Sys, e: Event, s': Sys)
    requires Steady(s) && ActiveReady(s) && Did(s, e, s')
    requires e.Creates? || e.Resets? || e.Deletes? || e.Sends? || e.Receives?
    ensures Kept(s') && NoneDying(s'.procs) && OnlyDeadAreZombies(s, e, s')
  {
    hide Kept, ZombiesStay, OnlyDeadAreZombies, NoneDying;
    match e
    case Creates(q, n) => CreateKept(s, q, n, s'); SameProcs(s, e, s');
    case Resets(q) => ResetsKept(s, q, s'); SameZombies(s, e, s');
    case Deletes(q) => ResetsKept(s, q, s'); SameZombies(s, e, s');
    case Sends(q, m) => SendKept(s, q, m, s'); SameZombies(s, e, s');
    case Receives(q, m) => ReceiveKept(s, q, m, s'); SameZombies(s, e, s');
  }

  lemma OtherEventKept(s: Sys, e: Event, s': Sys)
    requires Steady(s) && ActiveReady(s) && Did(s, e, s')
    requires e.ReadsLine? || e.AwaitsLine? || e.Flushes? || e.Passes? || e.Ticks? || e.Refuses?
    ensures Kept(s') && NoneDying(s'.procs) && OnlyDeadAreZombies(s, e, s')
  {
    hide Kept, ZombiesStay, OnlyDeadAreZombies, NoneDying;
    match e
    case ReadsLine(len, text) => ReadLineKept(s, len, text, s'); SameProcs(s, e, s');
    case AwaitsLine => AwaitKept(s, s'); SameZombies(s, e, s');
    case Flushes(text) => FlushKept(s, text, s'); SameZombies(s, e, s');
    case Passes(clock) => TimeKept(s, clock, s'); SameZombies(s, e, s');
    case Ticks => ActiveOnly(s, s'.active); SameProcs(s, e, s');
    case Refuses => SameProcs(s, e, s');
  }

  /** An entry keeps that, whoever is active, if and only if it is not a kill that switches away from a process that
      was ready or in a wait list. A process that is a zombie afterwards was one before or has died now. */
  lemma EventKept(s: Sys, e: Event, s': Sys)
    requires Steady(s) && ActiveReady(s) && Did(s, e, s')
    ensures (Kept(s') <==> KeepsLists(s, e)) && NoneDying(s'.procs) && OnlyDeadAreZombies(s, e, s')
  {
    hide Kept, NoneDying, OnlyDeadAreZombies, Did, ActiveReady, PathWaits, Subtree;
    if e.Creates? || e.Resets? || e.Deletes? || e.Sends? || e.Receives? {
      QueueEventKept(s, e, s');
    } else if e.ReadsLine? || e.AwaitsLine? || e.Flushes? || e.Passes? || e.Ticks? || e.Refuses? {
      OtherEventKept(s, e, s');
    } else {
      LifeEventKept(s, e, s');
    }
  }

  lemma SameZombies(s: Sys, e: Event, s': Sys)
    requires ZombiesStay(s.procs, s'.procs, Taken(s, e)) && NoneDying(s.procs)
    ensures OnlyDeadAreZombies(s, e, s') && NoneDying(s'.procs)
  {
  }

  lemma SameProcs(s: Sys, e: Event, s': Sys)
    requires s'.procs == s.procs
    ensures OnlyDeadAreZombies(s, e, s')
  {
  }

  lemma QuietZombies(s: Sys, e: Event)
    requires ActiveReady(s) && NoneDying(s.procs)
    ensures OnlyDeadAreZombies(s, e, Quiet(s)) && NoneDying(Quiet(s).procs)
  {
  }

  lemma ParentAlive(s: Sys, c: int)
    requires ActiveReady(s) && c in s.procs && s.procs[c].parent == s.active
    requires s.procs[s.active].state == Sched(Nothing)
    ensures s.procs[c].parent in s.procs
  {
  }

  lemma ReadLineKept(s: Sys, len: nat, text: seq<char>, s': Sys)
    requires Kept(s) && s.flushed != "" && IsLine(s.flushed, len, text, s'.flushed) && s' == s.(flushed := s'.flushed)
    ensures Kept(s')
  {
    SetConsoleKept(s, s'.flushed, s.armed);
  }

  // ----- whole runs -----

  /** A run: each event takes one system to the next. Before each the active process is ready, and none leaves a
      process in a list that its state does not name; the model does not follow the kernel beyond such an event. */
  ghost predicate IsRun(states: seq<Sys>, events: seq<Event>) {
    && |states| == |events| + 1 && Steady(states[0])
    && forall i {:trigger EventAt(states, events, i)} :: 0 <= i < |events| ==> EventAt(states, events, i)
  }

  ghost predicate EventAt(states: seq<Sys>, events: seq<Event>, i: int)
    requires 0 <= i < |events| && |states| == |events| + 1
  {
    Steady(states[i]) ==>
      ActiveReady(states[i]) && Did(states[i], events[i], states[i + 1]) && KeepsLists(states[i], events[i])
  }

  /** In every state of every run each process is in exactly the list its state names. */
  lemma {:induction false} RunKept(states: seq<Sys>, events: seq<Event>, i: nat)
    requires IsRun(states, events) && i < |states|
    ensures Steady(states[i])
  {
    if i > 0 {
      RunKept(states, events, i - 1);
      assert EventAt(states, events, i - 1);
      hide Kept, Did;
      EventKept(states[i - 1], events[i - 1], states[i]);
    }
  }

  predicate ReapsOf(e: Event, z: int, code: int) { e == Reaps(z, code) || e == ReapsLater(z, code) }

  lemma ReapedIsGone(s: Sys, e: Event, s': Sys, z: int, code: int)
    requires Kept(s) && ActiveReady(s) && Did(s, e, s') && ReapsOf(e, z, code)
    ensures IsZombie(s.procs, z, code) && z !in s'.procs
  {
    if e.Reaps? {
      FreeKept(s, z);
    } else {
      ReapLaterKept(s, z);
    }
  }

  /** From its death in event d on, and until now, a process has been a zombie with the same exit code. */
  ghost predicate DeadSince(states: seq<Sys>, events: seq<Event>, d: int, i: int, z: int, code: int)
    requires IsRun(states, events)
  {
    0 <= d < i < |states| && Dies(states[d], events[d], z, code) && forall m :: d < m <= i ==>
        IsZombie(states[m].procs, z, code)
  }

  lemma OneBack(states: seq<Sys>, events: seq<Event>, i: nat, z: int, code: int)
    requires IsRun(states, events) && 0 < i < |states| && IsZombie(states[i].procs, z, code)
    ensures i <= |events| && (IsZombie(states[i - 1].procs, z, code) || Dies(states[i - 1], events[i - 1], z, code))
  {
    RunKept(states, events, i - 1);
    assert EventAt(states, events, i - 1);
    hide Kept, Did;
    EventKept(states[i - 1], events[i - 1], states[i]);
  }

  lemma {:induction false} DeathBefore(states: seq<Sys>, events: seq<Event>, i: nat, z: int, code: int) returns (d: nat)
    requires IsRun(states, events) && i < |states| && IsZombie(states[i].procs, z, code)
    requires !IsZombie(states[0].procs, z, code)
    ensures DeadSince(states, events, d, i, z, code)
    decreases i
  {
    hide IsRun;
    OneBack(states, events, i, z, code);
    if IsZombie(states[i - 1].procs, z, code) {
      d := DeathBefore(states, events, i - 1, z, code);
    } else {
      d := i - 1;
    }
  }

  /** A zombie is reaped with the exit code it died with, and once: between its death and the event that reaps it no
      other event does. */
  lemma ReapedOnce(states: seq<Sys>, events: seq<Event>, j: nat, z: int, code: int) returns (d: nat)
    requires IsRun(states, events) && j < |events| && ReapsOf(events[j], z, code) && !IsZombie(states[0].procs, z, code)
    ensures DeadSince(states, events, d, j, z, code) && z !in states[j + 1].procs
    ensures forall m, c :: d < m < j ==> !ReapsOf(events[m], z, c)
  {
    RunKept(states, events, j);
    assert EventAt(states, events, j);
    ReapedIsGone(states[j], events[j], states[j + 1], z, code);
    d := DeathBefore(states, events, j, z, code);
    forall m, c | d < m < j
      ensures !ReapsOf(events[m], z, c)
    {
      RunKept(states, events, m);
      assert EventAt(states, events, m);
      if ReapsOf(events[m], z, c) {
        ReapedIsGone(states[m], events[m], states[m + 1], z, c);
      }
    }
  }

  // ----- safe events -----

  /** The events after which the most urgent ready process is active. Only an exit, a kill and a priority change can
      fail. */
  ghost predicate Safe(s: Sys, e: Event)
    requires Sound(s)
  {
    match e
    case Exits(_) => ExitSafe(s)
    case Kills(p) => p in s.procs && if s.active in Subtree(s, p) then AwaySafe(s, p) else KillSafe(s, p)
    case Ranks(p, k) => p in s.procs && PrioritySafe(s, p, k)
    case _ => true
  }

  lemma LifeEventSound(s: Sys, e: Event, s': Sys)
    requires Sound(s) && Did(s, e, s')
    requires e.Starts? || e.Exits? || e.Kills? || e.Reaps? || e.ReapsLater? || e.Resumes? || e.Ranks? || e.Blocks?
    ensures Sound(s') <==> Safe(s, e)
  {
    hide Sound, Kept, ExitSafe, KillSafe, Subtree;
    ActiveAlive(s);
    match e
    case Starts(p, k) => BornSound(s, p, k);
    case Exits(code) => ExitSound(s, code);
    case Kills(p) => KillOrAway(s, p, s');
    case Reaps(c, code) => ReapSound(s, c);
    case ReapsLater(c, code) => ReapLaterSound(s, c);
    case Resumes(_) => QuietSound(s);
    case Ranks(p, k) => PrioritySound(s, p, k);
    case Blocks(state) => BlockSound(s, s.procs[s.active].(state := state));
  }

  lemma KillOrAway(s: Sys, p: int, s': Sys)
    requires Sound(s) && DidKill(s, p, s')
    ensures Sound(s') <==> Safe(s, Kills(p))
  {
    hide Sound, Kept, KillSafe, Subtree, AwayAfterKill, PathWaits, HeirLives;
    if s.active in Subtree(s, p) {
      AwaySound(s, p, s');
    } else {
      KillSound(s, p);
    }
  }

  lemma ReapLaterSound(s: Sys, c: int)
    requires Sound(s) && s.procs[s.active].state == Sched(ReapChild(c)) && c in s.procs && s.procs[c].state.Zombie?
    ensures Sound(Freed(Quiet(s), c))
  {
    QuietSound(s);
    assert Branch(s.procs, s.depth, s.active);
    ChildOf(s.procs, s.depth, s.active, c);
    ReapSound(Quiet(s), c);
  }

  lemma QueueEventSound(s: Sys, e: Event, s': Sys)
    requires Sound(s) && Did(s, e, s')
    requires e.Creates? || e.Resets? || e.Deletes? || e.Sends? || e.Receives?
    ensures Sound(s')
  {
    hide Sound, Kept;
    ActiveAlive(s);
    match e
    case Creates(q, n) =>
      var qu :| FreshQueue(qu, n) && s' == SetQueue(s, q, qu, [], []);
      CreatedSound(s, q, qu);
    case Resets(q) =>
      var top :| TopOf(s.procs, s.queues[q].waiters, top) && s' == Urgent(Reset(s, q), top);
      ResetSound(s, q, top);
    case Deletes(q) =>
      var top :| TopOf(s.procs, s.queues[q].waiters, top) && s' == Urgent(Deleted(s, q), top);
      ResetSound(s, q, top);
    case Sends(q, m) => SendSound(s, q, m, s');
    case Receives(q, m) => ReceiveSound(s, q, m, s');
  }

  lemma SendSound(s: Sys, q: int, message: int, s': Sys)
    requires Sound(s) && q in s.queues && s.queues[q].length != s.queues[q].capacity && HasSent(s, q, message, Done, s')
    ensures Sound(s')
  {
    hide Sound, Kept, Urgent, HandedTo, Written;
    SoundKept(s);
    QueueKnown(s, q);
    if s.queues[q].length == 0 && s.queues[q].waiters != [] {
      var w :| LastOfHighest(s.procs, s.queues[q].waiters, w) && s' == Urgent(HandedTo(s, q, w, message), w);
      HandedSound(s, q, w, message);
    } else {
      WrittenSound(s, q, message);
    }
  }

  lemma ReceiveSound(s: Sys, q: int, message: int, s': Sys)
    requires Sound(s) && q in s.queues && s.queues[q].length != 0 && HasReceived(s, q, Received(message), s')
    ensures Sound(s')
  {
    hide Sound, Kept, Urgent, Refilled, Read;
    SoundKept(s);
    QueueKnown(s, q);
    if s.queues[q].length == s.queues[q].capacity && s.queues[q].waiters != [] {
      var w :| LastOfHighest(s.procs, s.queues[q].waiters, w) && w in s.procs && s.procs[w].state.WaitQueue?
               && s' == Urgent(Wake(Refilled(s, q, w), w, Accepted), w);
      RefilledSound(s, q, w);
    } else {
      PartlyFull(s, q);
      ReadSound(s, q);
    }
  }

  lemma OtherEventSound(s: Sys, e: Event, s': Sys)
    requires Sound(s) && Did(s, e, s')
    requires e.ReadsLine? || e.AwaitsLine? || e.Flushes? || e.Passes? || e.Ticks? || e.Refuses?
    ensures Sound(s')
  {
    hide Sound, Kept, Due, TimeCame, LineFlushed, Urgent, Successor;
    ActiveAlive(s);
    match e
    case ReadsLine(_, _) => NoReaders(s); FlushedFits(s); ConsoleSound(s, s'.flushed, s.armed);
    case AwaitsLine => AwaitSound(s, s');
    case Flushes(text) =>
      var top :| TopOf(s.procs, s.cons, top) && s' == Urgent(LineFlushed(s, text), top);
      FlushSound(s, text, top);
    case Passes(clock) =>
      var top :| TopOf(s.procs, Due(s.procs, s.sleepers, clock), top) && s' == Urgent(TimeCame(s, clock), top);
      TimeSound(s, clock, top);
    case Ticks => TickSound(s);
    case Refuses =>
  }

  lemma AwaitSound(s: Sys, s': Sys)
    requires Sound(s) && Did(s, AwaitsLine, s')
    ensures Sound(s')
  {
    ConsoleSound(s, "", true);
    var t := s.(armed := true);
    BlockSound(t, t.procs[t.active].(state := WaitCons));
  }

  /** An event leaves a sound system sound exactly when it is safe. */
  lemma EventSound(s: Sys, e: Event, s': Sys)
    requires Sound(s) && Did(s, e, s')
    ensures Sound(s') <==> Safe(s, e)
  {
    hide Sound, Did;
    if e.Creates? || e.Resets? || e.Deletes? || e.Sends? || e.Receives? {
      QueueEventSound(s, e, s');
    } else if e.ReadsLine? || e.AwaitsLine? || e.Flushes? || e.Passes? || e.Ticks? || e.Refuses? {
      OtherEventSound(s, e, s');
    } else {
      LifeEventSound(s, e, s');
    }
  }

  /** All events up to a state are safe. */
  ghost predicate SafeUntil(states: seq<Sys>, events: seq<Event>, i: int)
    requires |states| == |events| + 1 && i <= |events|
  {
    forall j {:trigger events[j]} :: 0 <= j < i ==> (Sound(states[j]) ==> Safe(states[j], events[j]))
  }

  lemma NextSound(states: seq<Sys>, events: seq<Event>, i: nat)
    requires IsRun(states, events) && i < |events| && Sound(states[i])
    ensures Sound(states[i + 1]) <==> Safe(states[i], events[i])
  {
    hide Sound, Safe, Did;
    RunKept(states, events, i);
    assert EventAt(states, events, i);
    EventSound(states[i], events[i], states[i + 1]);
  }

  /** In a run that begins in a sound system, the system is sound as long as all events are safe, and no longer: the
      first event that is not leaves it unsound. */
  lemma {:induction false} RunSound(states: seq<Sys>, events: seq<Event>, i: nat)
    requires IsRun(states, events) && Sound(states[0]) && i <= |events|
    ensures SafeUntil(states, events, i) ==> Sound(states[i])
    ensures i > 0 && SafeUntil(states, events, i - 1) && !SafeUntil(states, events, i) ==> !Sound(states[i])
  {
    assert |states| == |events| + 1;
    hide IsRun, Sound, Safe;
    if i > 0 {
      RunSound(states, events, i - 1);
      if Sound(states[i - 1]) {
        NextSound(states, events, i - 1);
      }
      assert SafeUntil(states, events, i) <==>
             SafeUntil(states, events, i - 1) && (Sound(states[i - 1]) ==> Safe(states[i - 1], events[i - 1]));
    }
  }
}
