/** Entries that never search below the active priority: they go on whoever is active, and keep a sound system sound. */
module ProcessSteady {
  import opened Lists
  import opened Processes
  import opened ProcessTree
  import opened MessageQueues
  import opened ProcessState
  import opened ProcessSteps
  import opened ProcessLife
  import opened ProcessDeath
  import opened ProcessQueues

  /** The kernel goes on from the new system as it could from the old one, soundly if that was sound. */
  ghost predicate GoesOn(s: Sys, s': Sys) {
    Steady(s') && ActiveReady(s') && (Sound(s) ==> Sound(s'))
  }

  lemma GoesOnIs(s: Sys, s': Sys)
    requires GoesOn(s, s')
    ensures Steady(s') && ActiveReady(s') && Kept(s')
  {
  }

  lemma SoundGoesOn(s: Sys, s': Sys)
    requires Sound(s')
    ensures Steady(s') && ActiveReady(s') && GoesOn(s, s')
  {
  }

  lemma ConsoleSound(s: Sys, flushed: seq<char>, armed: bool)
    requires Sound(s) && (s.cons == [] || (flushed == "" && armed)) && |flushed| <= ALL_BUFFER_CAP
    ensures Sound(s.(flushed := flushed, armed := armed))
  {
    SetConsoleKept(s, flushed, armed);
    SoundLike(s, s.(flushed := flushed, armed := armed));
  }

  lemma ConsoleGoesOn(s: Sys, flushed: seq<char>, armed: bool)
    requires Steady(s) && ActiveReady(s) && (s.cons == [] || (flushed == "" && armed)) && |flushed| <= ALL_BUFFER_CAP
    ensures GoesOn(s, s.(flushed := flushed, armed := armed))
  {
    hide Homed, Tree, Queued, SleepSorted;
    SetConsoleKept(s, flushed, armed);
    if Sound(s) {
      ConsoleSound(s, flushed, armed);
    }
  }

  lemma SoundSteady(s: Sys)
    requires Sound(s)
    ensures Steady(s) && ActiveReady(s) && ReapsZombie(s.procs, s.active)
  {
  }

  lemma UrgentKept(s: Sys, p: int)
    requires Kept(s)
    ensures Kept(Urgent(s, p)) && Urgent(s, p).procs == s.procs
  {
    ActiveOnly(s, p);
  }

  /** Processes were woken, and a most urgent one of them runs if it outranks the active process. */
  lemma WokenGoesOn(s: Sys, t: Sys, l: seq<int>, r: Resume, top: int)
    requires Steady(s) && ActiveReady(s) && Kept(t) && t.active == s.active && t.procs.Keys == s.procs.Keys
    requires forall p :: p in s.procs ==> t.procs[p] == if p in l then Woken(s.procs[p], r) else s.procs[p]
    requires TopOf(s.procs, l, top) && forall p :: p in l ==> p in s.procs
    ensures Steady(Urgent(t, top)) && ActiveReady(Urgent(t, top))
  {
    UrgentKept(t, top);
    NobodyOnly(t);
  }

  lemma TickGoesOn(s: Sys)
    requires Steady(s) && ActiveReady(s)
    ensures GoesOn(s, s.(active := Successor(s, NOBODY))) && Successor(s, NOBODY) != NOBODY
  {
    InItsRing(s, s.active);
    AfterInRing(s.rings[s.procs[s.active].priority], s.active);
    NobodyOnly(s);
    ActiveOnly(s, Successor(s, NOBODY));
  }

  lemma StartGoesOn(s: Sys, c: int, k: int)
    requires Steady(s) && ActiveReady(s) && c !in s.procs && c > 0 && 0 <= k < MAX_PRIORITY
    ensures s.active in s.depth && MAX_PRIORITY <= |s.rings| && GoesOn(s, Urgent(Born(s, c, k), c))
  {
    hide Homed, Tree, Queued, SleepSorted;
    KeptRings(s);
    BornKept(s, c, k);
    EnterRing(s, c, Newborn(s.active, k));
    UrgentKept(Born(s, c, k), c);
    if Sound(s) {
      BornSound(s, c, k);
    }
  }

  lemma CreateGoesOn(s: Sys, q: int, qu: Queue)
    requires Steady(s) && ActiveReady(s) && q !in s.queues && qu.waiters == [] && QueueOk(qu) && qu.length == 0
    ensures GoesOn(s, SetQueue(s, q, qu, [], []))
  {
    hide Homed, Tree, Queued, SleepSorted;
    NewQueueKept(s, q, qu);
    if Sound(s) {
      SoundLike(s, SetQueue(s, q, qu, [], []));
    }
  }

  lemma ResetGoesOn(s: Sys, q: int, top: int)
    requires Steady(s) && ActiveReady(s) && q in s.queues && TopOf(s.procs, s.queues[q].waiters, top)
    ensures GoesOn(s, Urgent(Reset(s, q), top)) && GoesOn(s, Urgent(Deleted(s, q), top))
  {
    hide Kept, WakeEach, Settled, Ready;
    var l := s.queues[q].waiters;
    KeptHomed(s);
    Waiting(s, InQueue(q));
    WaitersGone(s, q);
    WokenFacts(s, WakeEach(s, l, WasReset), l, WasReset);
    ResetKept(s, q);
    ResetProcs(s, q);
    WokenGoesOn(s, Reset(s, q), l, WasReset, top);
    WokenGoesOn(s, Deleted(s, q), l, WasReset, top);
    if Sound(s) {
      ResetSound(s, q, top);
    }
  }

  lemma ResetProcs(s: Sys, q: int)
    requires q in s.queues
    ensures var t := WakeEach(s, s.queues[q].waiters, WasReset);
            && Reset(s, q).procs == t.procs == Deleted(s, q).procs
            && Reset(s, q).active == t.active == Deleted(s, q).active
  {
    hide WakeEach;
  }

  lemma FlushGoesOn(s: Sys, text: seq<char>, top: int)
    requires Steady(s) && ActiveReady(s) && TopOf(s.procs, s.cons, top) && |s.flushed| + |text| <= ALL_BUFFER_CAP
    ensures GoesOn(s, Urgent(LineFlushed(s, text), top)) && Kept(LineFlushed(s, text))
    ensures LineFlushed(s, text).cons == []
  {
    hide Kept, WakeEach, Settled, Ready;
    KeptHomed(s);
    Waiting(s, OnConsole);
    ReadersGone(s);
    var t := WakeEach(s, s.cons, ReadAgain);
    WokenFacts(s, t, s.cons, ReadAgain);
    SetConsoleKept(t, s.flushed + text, false);
    WokenGoesOn(s, LineFlushed(s, text), s.cons, ReadAgain, top);
    if Sound(s) {
      FlushSound(s, text, top);
    }
  }

  lemma TimeGoesOn(s: Sys, clock: int, top: int)
    requires Steady(s) && ActiveReady(s) && TopOf(s.procs, Due(s.procs, s.sleepers, clock), top)
    ensures GoesOn(s, Urgent(TimeCame(s, clock), top)) && Kept(TimeCame(s, clock))
  {
    var l := Due(s.procs, s.sleepers, clock);
    Waiting(s, Asleep);
    DuePrefix(s.procs, s.sleepers, clock);
    forall p | p in l
      ensures p in s.procs && s.procs[p].priority <= MAX_PRIORITY
    {
      assert HasHome(s, p);
    }
    WakeEachKept(s, l, Nothing, MAX_PRIORITY);
    hide WakeEach, Due, Homed, Tree, Queued, SleepSorted;
    WokenFacts(s, TimeCame(s, clock), l, Nothing);
    WokenGoesOn(s, TimeCame(s, clock), l, Nothing, top);
    if Sound(s) {
      TimeSound(s, clock, top);
    }
  }

  lemma QuietGoesOn(s: Sys)
    requires Steady(s) && ActiveReady(s)
    ensures GoesOn(s, Quiet(s))
  {
    hide Homed, Tree, Queued, SleepSorted;
    QuietKept(s);
    if Sound(s) {
      QuietSound(s);
    }
  }

  lemma ReapGoesOn(s: Sys, c: int)
    requires Steady(s) && c in s.procs && s.procs[c].state.Zombie? && s.procs[c].parent == s.active
    requires s.active in s.procs && s.procs[s.active].state == Sched(Nothing)
    ensures c != IDLE && Unclaimed(s.procs, c) && GoesOn(s, Freed(s, c))
  {
    hide Homed, Queued, SleepSorted;
    NotClaimed(s, c);
    FreedKept(s, c);
    ParentStays(s, c);
    if Sound(s) {
      ReapSound(s, c);
    }
  }

  lemma ParentStays(s: Sys, c: int)
    requires c in s.procs && s.procs[c].parent in s.procs && s.procs[c].parent != c
    ensures var a := s.procs[c].parent; a in Freed(s, c).procs && Freed(s, c).procs[a].state == s.procs[a].state
    ensures forall p :: p in Freed(s, c).procs ==> p in s.procs && Freed(s, c).procs[p].state == s.procs[p].state
  {
  }

  // ----- messages -----

  lemma WrittenGoesOn(s: Sys, q: int, message: int)
    requires Steady(s) && ActiveReady(s) && q in s.queues && s.queues[q].length < s.queues[q].capacity
    requires s.queues[q].length == 0 ==> s.queues[q].waiters == []
    ensures q in s.sent && q in s.got && s.queues[q].writeIndex < |s.queues[q].messages|
    ensures GoesOn(s, Written(s, q, message))
  {
    hide Homed, Tree, Queued, SleepSorted;
    WrittenKept(s, q, message);
    if Sound(s) {
      WrittenSound(s, q, message);
    }
  }

  lemma ReadGoesOn(s: Sys, q: int)
    requires Steady(s) && ActiveReady(s) && q in s.queues && s.queues[q].length > 0 && s.queues[q].waiters == []
    ensures q in s.sent && q in s.got && s.queues[q].readIndex < |s.queues[q].messages| && GoesOn(s, Read(s, q))
  {
    hide Homed, Tree, Queued, SleepSorted;
    ReadKept(s, q);
    if Sound(s) {
      ReadSound(s, q);
    }
  }

  lemma HandedGoesOn(s: Sys, q: int, w: int, message: int)
    requires Steady(s) && ActiveReady(s) && q in s.queues && s.queues[q].length == 0 && w in s.queues[q].waiters
    ensures q in s.sent && q in s.got && GoesOn(s, Urgent(HandedTo(s, q, w, message), w))
    ensures Kept(HandedTo(s, q, w, message))
  {
    hide Homed, Tree, Queued, SleepSorted, Wake;
    HandedKept(s, q, w, message);
    WokenFacts(s, Wake(s, w, Handed(q, message)), [w], Handed(q, message));
    WokenGoesOn(s, HandedTo(s, q, w, message), [w], Handed(q, message), w);
    if Sound(s) {
      HandedSound(s, q, w, message);
    }
  }

  lemma RefilledGoesOn(s: Sys, q: int, w: int)
    requires Steady(s) && ActiveReady(s) && q in s.queues && s.queues[q].length == s.queues[q].capacity
    requires w in s.queues[q].waiters
    ensures q in s.sent && q in s.got && s.queues[q].length > 0 && s.queues[q].readIndex < |s.queues[q].messages|
    ensures s.queues[q].writeIndex < |s.queues[q].messages| && w in s.procs && s.procs[w].state.WaitQueue?
    ensures GoesOn(s, Urgent(Wake(Refilled(s, q, w), w, Accepted), w))
  {
    hide Homed, Tree, Queued, SleepSorted, Wake;
    RefilledKept(s, q, w);
    var t := Refilled(s, q, w);
    WokenFacts(t, Wake(t, w, Accepted), [w], Accepted);
    WokenGoesOn(s, Wake(t, w, Accepted), [w], Accepted, w);
    if Sound(s) {
      RefilledSound(s, q, w);
    }
  }

  // ----- priorities and kills -----

  /** The active process of a lowered priority finds itself at least. */
  lemma RankedGoesOn(s: Sys, p: int, k: int)
    requires Steady(s) && ActiveReady(s) && p in s.procs && !s.procs[p].state.Zombie? && 0 <= k < MAX_PRIORITY
    requires k != s.procs[p].priority
    ensures Steady(Ranked(s, p, k)) && ActiveReady(Ranked(s, p, k))
    ensures Sound(s) ==> (Sound(Ranked(s, p, k)) <==> PrioritySafe(s, p, k))
  {
    hide Tree, Queued, SleepSorted;
    RerankedKept(s, p, k);
    var s1, n := Reranked(s, p, k), RunsAfter(s, p, k);
    ActiveOnly(s1, n);
    NobodyOnly(s);
    if p == s.active && k < s.procs[p].priority {
      InItsRing(s, p);
      AfterInRing(s.rings[s.procs[p].priority], p);
      RingsBelow(s1, s.procs[p].priority);
      InItsRing(s1, p);
    }
    if Sound(s) {
      PrioritySound(s, p, k);
    }
  }

  /** A kill of a process that is not above the active one. */
  lemma KillGoesOn(s: Sys, p: int, r: Sys)
    requires Steady(s) && ActiveReady(s) && AfterKill(s, p, 0, r) && s.active !in Subtree(s, p)
    ensures Steady(r) && ActiveReady(r)
  {
    hide Tree, Queued, SleepSorted, Homed, Killed, Subtree, ParentTold;
    KeptHomed(s);
    ToldKept(s, p);
    var t := ParentTold(s, p);
    KilledKept(t, p, 0);
    KilledProcs(t, p, 0, s.active);
    forall q | q in r.procs
      ensures !r.procs[q].state.Dying?
    {
      KilledProcs(t, p, 0, q);
    }
  }
}
