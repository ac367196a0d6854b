/** What goes in and comes out over whole runs: characters of the console, and the messages of blocked senders. */
module ProcessLogs {
  import opened Lists
  import opened Processes
  import opened ProcessTree
  import opened ProcessOrder
  import opened MessageQueues
  import opened ProcessState
  import opened ProcessSteps
  import opened ProcessLife
  import opened ProcessDeath
  import opened ProcessSwitch
  import opened ProcessAway
  import opened ProcessQueues
  import opened ProcessSteady
  import opened ProcessKernel
  import opened ProcessHistory

  /** Nothing went into a queue or the console, or came out. */
  ghost predicate SameLogs(s: Sys, s': Sys) {
    s'.flushed == s.flushed && s'.sent == s.sent && s'.got == s.got
  }

  lemma WokenLogs(s: Sys, l: seq<int>, r: Resume)
    requires Kept(s) && NoDups(l) && !r.ReapChild? && forall p :: p in l ==> p in s.procs && !s.procs[p].state.Zombie?
    ensures SameLogs(s, WakeEach(s, l, r)) && OnlyWoken(s, WakeEach(s, l, r), l, r)
  {
    hide WakeEach, Kept;
    WakeList(s, l, r);
  }

  lemma ToldLogs(s: Sys, p: int)
    requires Kept(s) && p in s.procs
    ensures SameLogs(s, ParentTold(s, p))
  {
    if Awaited(s.procs, p) {
      var a := s.procs[p].parent;
      assert HasHome(s, a);
      MoveFields(s, a, s.procs[a].(state := Sched(ReapChild(p))));
    }
  }

  lemma ExitLogs(s: Sys, code: int)
    requires Kept(s) && ActiveReady(s)
    ensures SameLogs(s, Exited(s, code))
  {
    hide Kept, ParentTold, Killed;
    KeptHomed(s);
    ToldZombies(s, s.active);
    ToldLogs(s, s.active);
    ExitedIs(s, code);
    KilledLists(ParentTold(s, s.active), s.active, code);
  }

  lemma KillLogs(s: Sys, p: int, s': Sys)
    requires Kept(s) && ActiveReady(s) && DidKill(s, p, s')
    ensures SameLogs(s, s')
  {
    hide Kept, ParentTold, Killed, Subtree;
    KeptHomed(s);
    ToldZombies(s, p);
    ToldLogs(s, p);
    if s.active in Subtree(s, p) {
      hide LeftAs, SwitchedTo;
      var r :| SwitchedAway(ParentTold(s, p), p, r) && s' == AsStored(r);
    } else {
      KilledLists(ParentTold(s, p), p, 0);
    }
  }

  lemma RankLogs(s: Sys, p: int, k: int)
    requires Kept(s) && p in s.procs && 0 <= k < MAX_PRIORITY
    ensures SameLogs(s, Ranked(s, p, k))
  {
    assert HasHome(s, p);
    MoveFields(s, p, s.procs[p].(priority := k));
    RerankedKept(s, p, k);
  }

  lemma BlockLogs(s: Sys, state: State, s': Sys)
    requires Kept(s) && ActiveReady(s) && DidBlock(s, state, s')
    ensures SameLogs(s, s')
  {
    assert HasHome(s, s.active);
    MoveFields(s, s.active, s.procs[s.active].(state := state));
  }

  lemma TimeLogs(s: Sys, clock: int, s': Sys)
    requires Kept(s) && WasTimed(s, clock, s')
    ensures SameLogs(s, s')
  {
    Waiting(s, Asleep);
    DuePrefix(s.procs, s.sleepers, clock);
    WokenLogs(s, Due(s.procs, s.sleepers, clock), Nothing);
    hide WakeEach;
  }

  lemma FlushLogs(s: Sys, text: seq<char>, s': Sys)
    requires Kept(s) && WasFlushed(s, text, s')
    ensures s'.flushed == s.flushed + text && s'.sent == s.sent && s'.got == s.got
  {
    Waiting(s, OnConsole);
    WokenLogs(s, s.cons, ReadAgain);
    hide WakeEach;
  }

  lemma LifeLogs(s: Sys, e: Event, s': Sys)
    requires Kept(s) && ActiveReady(s) && Did(s, e, s')
    requires e.Starts? || e.Exits? || e.Kills? || e.Reaps? || e.ReapsLater? || e.Resumes? || e.Ranks? || e.Blocks?
    ensures SameLogs(s, s')
  {
    hide Kept;
    match e
    case Starts(p, k) => EnterRing(s, p, Newborn(s.active, k));
    case Exits(code) => ExitLogs(s, code);
    case Kills(p) => KillLogs(s, p, s');
    case Reaps(c, code) =>
    case ReapsLater(c, code) =>
    case Resumes(_) =>
    case Ranks(p, k) => RankLogs(s, p, k);
    case Blocks(state) => BlockLogs(s, state, s');
  }

  /** Queues do not touch the console, and a change in one queue leaves the logs of the others. */
  lemma QueueLogs(s: Sys, e: Event, s': Sys, q: int)
    requires Kept(s) && ActiveReady(s) && Did(s, e, s') && q in s.sent
    requires e.Creates? || e.Resets? || e.Deletes? || e.Sends? || e.Receives?
    ensures s'.flushed == s.flushed
    ensures e.queue != q || e.Deletes? ==> q in s'.sent && s'.sent[q] == s.sent[q]
  {
    hide Kept, WasResetTo, HasSent, HasReceived, SetQueue;
    match e
    case Creates(i, n) => CreateLogs(s, i, n, s', q);
    case Resets(i) => ResetsLogs(s, i, s', q);
    case Deletes(i) => DeletesLogs(s, i, s');
    case Sends(i, m) => SendLogs(s, i, m, s', q);
    case Receives(i, m) => ReceiveLogs(s, i, m, s', q);
  }

  lemma CreateLogs(s: Sys, i: int, n: int, s': Sys, q: int)
    requires Kept(s) && ActiveReady(s) && Did(s, Creates(i, n), s') && q in s.sent
    ensures s'.flushed == s.flushed && (i != q ==> q in s'.sent && s'.sent[q] == s.sent[q])
  {
    hide Kept;
    var qu :| FreshQueue(qu, n) && s' == SetQueue(s, i, qu, [], []);
  }

  lemma ResetsLogs(s: Sys, i: int, s': Sys, q: int)
    requires Kept(s) && i in s.queues && WasResetTo(s, i, Reset(s, i), s') && q in s.sent
    ensures s'.flushed == s.flushed && (i != q ==> q in s'.sent && s'.sent[q] == s.sent[q])
  {
    hide Kept, Reset, WakeEach;
    WaitersLogs(s, i);
    ResetLogs(s, i);
    var top :| s' == Urgent(Reset(s, i), top);
  }

  lemma DeletesLogs(s: Sys, i: int, s': Sys)
    requires Kept(s) && i in s.queues && WasResetTo(s, i, Deleted(s, i), s')
    ensures SameLogs(s, s')
  {
    hide Kept, Deleted, WakeEach;
    WaitersLogs(s, i);
    ResetLogs(s, i);
    var top :| s' == Urgent(Deleted(s, i), top);
  }

  lemma WaitersLogs(s: Sys, q: int)
    requires Kept(s) && q in s.queues
    ensures SameLogs(s, WakeEach(s, s.queues[q].waiters, WasReset))
    ensures OnlyWoken(s, WakeEach(s, s.queues[q].waiters, WasReset), s.queues[q].waiters, WasReset)
  {
    Waiting(s, InQueue(q));
    WokenLogs(s, s.queues[q].waiters, WasReset);
  }

  lemma ResetLogs(s: Sys, q: int)
    requires q in s.queues && SameLogs(s, WakeEach(s, s.queues[q].waiters, WasReset))
    ensures Reset(s, q).flushed == s.flushed
    ensures forall i :: i in s.sent && i != q ==> i in Reset(s, q).sent && Reset(s, q).sent[i] == s.sent[i]
    ensures SameLogs(s, Deleted(s, q))
  {
    hide WakeEach;
  }

  lemma SendLogs(s: Sys, i: int, message: int, s': Sys, q: int)
    requires Kept(s) && i in s.queues && s.queues[i].length != s.queues[i].capacity && HasSent(s, i, message, Done, s')
    requires q in s.sent
    ensures s'.flushed == s.flushed && (i != q ==> q in s'.sent && s'.sent[q] == s.sent[q])
  {
    hide Kept, HasHanded;
    if s.queues[i].length == 0 && s.queues[i].waiters != [] {
      HandLogs(s, i, message, s', q);
    }
  }

  lemma HandLogs(s: Sys, i: int, message: int, s': Sys, q: int)
    requires Kept(s) && i in s.queues && s.queues[i].length == 0 && HasHanded(s, i, message, s') && q in s.sent
    ensures s'.flushed == s.flushed && (i != q ==> q in s'.sent && s'.sent[q] == s.sent[q])
  {
    hide Kept, Wake;
    var w :| LastOfHighest(s.procs, s.queues[i].waiters, w) && s' == Urgent(HandedTo(s, i, w, message), w);
    HandedKept(s, i, w, message);
  }

  lemma ReceiveLogs(s: Sys, i: int, message: int, s': Sys, q: int)
    requires Kept(s) && i in s.queues && s.queues[i].length != 0 && HasReceived(s, i, Received(message), s')
    requires q in s.sent
    ensures s'.flushed == s.flushed && (i != q ==> q in s'.sent && s'.sent[q] == s.sent[q])
  {
    hide Kept, HasRefilled;
    if s.queues[i].length == s.queues[i].capacity && s.queues[i].waiters != [] {
      RefillLogs(s, i, s', q);
    }
  }

  lemma RefillLogs(s: Sys, i: int, s': Sys, q: int)
    requires Kept(s) && i in s.queues && s.queues[i].length == s.queues[i].capacity && HasRefilled(s, i, s')
    requires q in s.sent
    ensures s'.flushed == s.flushed && (i != q ==> q in s'.sent && s'.sent[q] == s.sent[q])
  {
    hide Kept, Wake;
    var w :| LastOfHighest(s.procs, s.queues[i].waiters, w) && w in s.procs && s.procs[w].state.WaitQueue?
             && s' == Urgent(Wake(Refilled(s, i, w), w, Accepted), w);
    RefilledKept(s, i, w);
  }

  // ----- the console -----

  /** The characters that an event adds to what is flushed. */
  function Typed(e: Event): seq<char> { if e.Flushes? then e.text else "" }

  /** The characters that an event takes off what is flushed: a line with its break, or a part of it. */
  function TakenOff(s: Sys, e: Event, s': Sys): seq<char> {
    if e.ReadsLine? && |s'.flushed| <= |s.flushed| then s.flushed[..|s.flushed| - |s'.flushed|] else ""
  }

  /** In each event nothing is lost: what was there and what is typed is what is taken off and what is there. The
      caller gets what is taken off, without a line break at its end. */
  lemma EventConsole(s: Sys, e: Event, s': Sys)
    requires Steady(s) && ActiveReady(s) && Did(s, e, s')
    ensures s.flushed + Typed(e) == TakenOff(s, e, s') + s'.flushed
    ensures e.ReadsLine? ==> TakenOff(s, e, s') == e.text || TakenOff(s, e, s') == e.text + ['\n']
    ensures e.ReadsLine? ==> |TakenOff(s, e, s')| <= e.len
  {
    hide Kept, NoneDying, HasSent, HasReceived, WasResetTo, WasTimed, WasFlushed, HasBlocked, IsLine;
    if e.ReadsLine? {
      LineTaken(s.flushed, e.len, e.text, s'.flushed);
    } else if e.Flushes? {
      FlushLogs(s, e.text, s');
    } else if e.Creates? || e.Resets? || e.Deletes? || e.Sends? || e.Receives? {
      QueueConsole(s, e, s');
    } else if e.AwaitsLine? {
      AwaitLogs(s, s');
    } else if e.Passes? {
      TimeLogs(s, e.clock, s');
    } else if e.Ticks? || e.Refuses? {
    } else {
      LifeLogs(s, e, s');
    }
  }

  lemma LineTaken(before: seq<char>, len: nat, text: seq<char>, after: seq<char>)
    requires IsLine(before, len, text, after)
    ensures 0 <= |before| - |after| <= len && before == before[..|before| - |after|] + after
    ensures before[..|before| - |after|] == text || before[..|before| - |after|] == text + ['\n']
  {
    if |text| < len && before == text + ['\n'] + after {
      assert before[..|before| - |after|] == text + ['\n'];
    } else {
      assert before[..|before| - |after|] == text;
    }
  }

  lemma QueueConsole(s: Sys, e: Event, s': Sys)
    requires Kept(s) && ActiveReady(s) && Did(s, e, s')
    requires e.Creates? || e.Resets? || e.Deletes? || e.Sends? || e.Receives?
    ensures s'.flushed == s.flushed
  {
    if e.Creates? {
    } else {
      QueueKnown(s, e.queue);
      QueueLogs(s, e, s', e.queue);
    }
  }

  lemma AwaitLogs(s: Sys, s': Sys)
    requires Kept(s) && ActiveReady(s) && Did(s, AwaitsLine, s')
    ensures SameLogs(s, s')
  {
    SetConsoleKept(s, "", true);
    BlockLogs(s.(armed := true), WaitCons, s');
  }

  /** All that was typed in the first i events of a run, and all that was taken off. */
  ghost function AllTyped(states: seq<Sys>, events: seq<Event>, i: nat): seq<char>
    requires i <= |events|
  {
    if i == 0 then "" else AllTyped(states, events, i - 1) + Typed(events[i - 1])
  }

  ghost function AllTaken(states: seq<Sys>, events: seq<Event>, i: nat): seq<char>
    requires i <= |events| && |states| == |events| + 1
  {
    if i == 0 then "" else AllTaken(states, events, i - 1) + TakenOff(states[i - 1], events[i - 1], states[i])
  }

  /** Over every run, what was flushed at the start and all that was typed is, in order, all that was read and what is
      flushed now. */
  lemma {:induction false} RunConsole(states: seq<Sys>, events: seq<Event>, i: nat)
    requires IsRun(states, events) && i <= |events|
    ensures states[0].flushed + AllTyped(states, events, i) == AllTaken(states, events, i) + states[i].flushed
  {
    assert |states| == |events| + 1;
    hide IsRun;
    if i > 0 {
      RunConsole(states, events, i - 1);
      NextConsole(states, events, i - 1);
      var s, e, s' := states[i - 1], events[i - 1], states[i];
      JoinLogs(states[0].flushed, AllTyped(states, events, i - 1), Typed(e), AllTaken(states, events, i - 1), s.flushed,
               TakenOff(s, e, s'), s'.flushed);
    }
  }

  lemma NextConsole(states: seq<Sys>, events: seq<Event>, i: nat)
    requires IsRun(states, events) && i < |events|
    ensures states[i].flushed + Typed(events[i]) ==
        TakenOff(states[i], events[i], states[i + 1]) + states[i + 1].flushed
  {
    RunKept(states, events, i);
    assert EventAt(states, events, i);
    hide Steady, ActiveReady, Did, Typed, TakenOff;
    EventConsole(states[i], events[i], states[i + 1]);
  }

  lemma JoinLogs(a: seq<char>, typed: seq<char>, x: seq<char>, taken: seq<char>, f: seq<char>, y: seq<char>,
      f': seq<char>)
    requires a + typed == taken + f && f + x == y + f'
    ensures a + (typed + x) == (taken + y) + f'
  {
    assert a + (typed + x) == (a + typed) + x;
    assert (taken + f) + x == taken + (f + x);
    assert taken + (y + f') == (taken + y) + f';
  }

  // ----- blocked senders -----

  /** This process waits to put this message into this queue. */
  ghost predicate WaitsToSend(s: Sys, w: int, q: int, message: int) {
    w in s.procs && s.procs[w].state == WaitQueue(q, message, true)
  }

  /** Its message went in, once, and the process goes on. */
  ghost predicate Entered(s: Sys, s': Sys, w: int, q: int, message: int) {
    && w in s'.procs && s'.procs[w].state == Sched(Accepted)
    && q in s.sent && q in s'.sent && s'.sent[q] == s.sent[q] + [message]
  }

  /** It still waits, and what went into the queue, if anything, is the message of another process that was let in. */
  ghost predicate StillWaits(s: Sys, s': Sys, w: int, q: int, message: int) {
    && WaitsToSend(s', w, q, message) && q in s.sent && q in s'.sent
    && (s'.sent[q] == s.sent[q] || exists v, m :: v != w && WaitsToSend(s, v, q, m) && Entered(s, s', v, q, m))
  }

  /** The queue was reset or deleted, and the message did not go in. */
  ghost predicate Refused(s: Sys, s': Sys, w: int, q: int) {
    && w in s'.procs && s'.procs[w].state == Sched(WasReset)
    && q in s.sent && q in s'.sent && (s'.sent[q] == [] || s'.sent[q] == s.sent[q])
  }

  /** The process was killed, and the message did not go in. */
  ghost predicate DiedWaiting(s: Sys, s': Sys, w: int, q: int) {
    && (w !in s'.procs || s'.procs[w].state.Zombie?)
    && q in s.sent && q in s'.sent && s'.sent[q] == s.sent[q]
  }

  lemma SenderKnown(s: Sys, w: int, q: int, message: int)
    requires Kept(s) && ActiveReady(s) && WaitsToSend(s, w, q, message)
    ensures w != s.active && q in s.queues && q in s.sent && q in s.got && w in s.queues[q].waiters
    ensures s.queues[q].length == s.queues[q].capacity > 0
    ensures forall i :: i in s.queues && i != q ==> w !in s.queues[i].waiters
    ensures w !in s.cons && w !in s.sleepers
  {
    assert HasHome(s, w);
    assert Houses(s, InQueue(q)) && QueueSound(s, q);
    assert w in List(s, InQueue(q));
    assert WaitsRightly(s, q, w);
    forall i | i in s.queues && i != q
      ensures w !in s.queues[i].waiters
    {
      assert Houses(s, InQueue(i));
      assert w !in List(s, InQueue(i));
    }
    assert Houses(s, OnConsole) && Houses(s, Asleep);
    assert w !in List(s, OnConsole) && w !in List(s, Asleep);
  }

  lemma KilledSender(s: Sys, p: int, code: int, w: int)
    requires Kept(s) && p in s.procs && w in s.procs
    ensures HasHome(s, p)
    ensures var r := Killed(s, p, code);
            w in r.procs ==> r.procs[w].state == s.procs[w].state || (w == p && r.procs[w].state.Zombie?)
  {
    KilledKept(s, p, code);
    if w !in Subtree(s, p) - {p} {
      KilledProcs(s, p, code, w);
    }
  }

  lemma ToldSender(s: Sys, p: int, w: int)
    requires Kept(s) && p in s.procs && w in s.procs && s.procs[w].state.WaitQueue?
    ensures Kept(ParentTold(s, p)) && p in ParentTold(s, p).procs && w in ParentTold(s, p).procs
    ensures ParentTold(s, p).procs[w] == s.procs[w]
  {
    ToldKept(s, p);
  }

  lemma ExitSender(s: Sys, code: int, w: int)
    requires Kept(s) && ActiveReady(s) && w in s.procs && s.procs[w].state.WaitQueue?
    ensures var s' := Exited(s, code); w in s'.procs ==>
        s'.procs[w].state == s.procs[w].state || s'.procs[w].state.Zombie?
  {
    hide Kept, ParentTold, Killed;
    KeptHomed(s);
    ToldSender(s, s.active, w);
    ExitedIs(s, code);
    KilledSender(ParentTold(s, s.active), s.active, code, w);
  }

  lemma KillSender(s: Sys, p: int, s': Sys, w: int)
    requires Steady(s) && ActiveReady(s) && DidKill(s, p, s') && w in s.procs && s.procs[w].state.WaitQueue?
    ensures w in s'.procs ==> s'.procs[w].state == s.procs[w].state || s'.procs[w].state.Zombie?
  {
    hide Kept, ParentTold, Killed, Subtree, NoneDying;
    KeptHomed(s);
    ToldSender(s, p, w);
    if s.active in Subtree(s, p) {
      ToldPath(s, p);
      hide LeftAs, SwitchedTo, SwitchedAway;
      var r :| SwitchedAway(ParentTold(s, p), p, r) && s' == AsStored(r);
      AwaySender(ParentTold(s, p), p, r, w);
    } else {
      KilledSender(ParentTold(s, p), p, 0, w);
    }
  }

  lemma AwaySender(s: Sys, p: int, r: Sys, w: int)
    requires SwitchedAway(s, p, r) && Kept(s) && NoneDying(s.procs) && s.active in Subtree(s, p) && w in s.procs
    ensures w in r.procs ==> Stored(r.procs[w]).state == s.procs[w].state || Stored(r.procs[w]).state.Zombie?
  {
    hide Homed, Queued, SleepSorted, SwitchedTo, Subtree;
    assert LeftAs(s, p, r, w);
    DyingAre(s, p, r, w);
  }

  lemma LifeSender(s: Sys, e: Event, s': Sys, w: int, q: int, message: int)
    requires Steady(s) && ActiveReady(s) && Did(s, e, s') && WaitsToSend(s, w, q, message)
    requires e.Starts? || e.Exits? || e.Kills? || e.Reaps? || e.ReapsLater? || e.Resumes? || e.Ranks? || e.Blocks?
    ensures StillWaits(s, s', w, q, message) || DiedWaiting(s, s', w, q)
  {
    hide Kept, NoneDying;
    SenderKnown(s, w, q, message);
    LifeLogs(s, e, s');
    match e
    case Starts(p, k) => EnterRing(s, p, Newborn(s.active, k));
    case Exits(code) => ExitSender(s, code, w);
    case Kills(p) => KillSender(s, p, s', w);
    case Reaps(c, code) =>
    case ReapsLater(c, code) =>
    case Resumes(_) =>
    case Ranks(p, k) => RerankedKept(s, p, k);
    case Blocks(state) => BlockProcs(s, state, s');
  }

  lemma BlockProcs(s: Sys, state: State, s': Sys)
    requires Kept(s) && ActiveReady(s) && DidBlock(s, state, s')
    ensures s'.procs == s.procs[s.active := s.procs[s.active].(state := state)]
  {
    assert HasHome(s, s.active);
    MoveActive(s, s.active, s.procs[s.active].(state := state));
  }

  lemma ResetSender(s: Sys, i: int, s': Sys, w: int, q: int, message: int)
    requires Kept(s) && ActiveReady(s) && WaitsToSend(s, w, q, message) && i in s.queues
    requires WasResetTo(s, i, Reset(s, i), s') || WasResetTo(s, i, Deleted(s, i), s')
    ensures StillWaits(s, s', w, q, message) || Refused(s, s', w, q)
  {
    hide Kept, WakeEach;
    SenderKnown(s, w, q, message);
    WaitersLogs(s, i);
    WokenFacts(s, WakeEach(s, s.queues[i].waiters, WasReset), s.queues[i].waiters, WasReset);
    WaitersGone(s, i);
  }

  lemma SendSender(s: Sys, i: int, m: int, s': Sys, w: int, q: int, message: int)
    requires Kept(s) && ActiveReady(s) && WaitsToSend(s, w, q, message)
    requires i in s.queues && s.queues[i].length != s.queues[i].capacity && HasSent(s, i, m, Done, s')
    ensures StillWaits(s, s', w, q, message)
  {
    hide Kept, Wake, HasHanded;
    SenderKnown(s, w, q, message);
    SendLogs(s, i, m, s', q);
    if s.queues[i].length == 0 && s.queues[i].waiters != [] {
      HandSender(s, i, m, s', w);
    }
  }

  lemma HandSender(s: Sys, i: int, m: int, s': Sys, w: int)
    requires Kept(s) && i in s.queues && s.queues[i].length == 0 && HasHanded(s, i, m, s') && w in s.procs
    requires w !in s.queues[i].waiters
    ensures w in s'.procs && s'.procs[w] == s.procs[w]
  {
    hide Kept, Wake;
    var v :| LastOfHighest(s.procs, s.queues[i].waiters, v) && s' == Urgent(HandedTo(s, i, v, m), v);
    HandedKept(s, i, v, m);
    WokenFacts(s, Wake(s, v, Handed(i, m)), [v], Handed(i, m));
  }

  lemma ReceiveSender(s: Sys, i: int, m: int, s': Sys, w: int, q: int, message: int)
    requires Kept(s) && ActiveReady(s) && WaitsToSend(s, w, q, message)
    requires i in s.queues && s.queues[i].length != 0 && HasReceived(s, i, Received(m), s')
    ensures StillWaits(s, s', w, q, message) || Entered(s, s', w, q, message)
  {
    hide Homed, Tree, SleepSorted, Queued, Wake;
    SenderKnown(s, w, q, message);
    ReceiveLogs(s, i, m, s', q);
    if s.queues[i].length == s.queues[i].capacity && s.queues[i].waiters != [] {
      var v :| LastOfHighest(s.procs, s.queues[i].waiters, v) && v in s.procs && s.procs[v].state.WaitQueue?
               && s' == Urgent(Wake(Refilled(s, i, v), v, Accepted), v);
      RefilledKept(s, i, v);
      LetIn(s, i, v, s', w, q, message);
    }
  }

  /** The blocked sender v is let into queue i. */
  lemma LetIn(s: Sys, i: int, v: int, s': Sys, w: int, q: int, message: int)
    requires Kept(s) && ActiveReady(s) && WaitsToSend(s, w, q, message) && i in s.queues && v in s.queues[i].waiters
    requires s.queues[i].length == s.queues[i].capacity && i in s.sent && i in s.got && s.queues[i].length > 0
    requires s.queues[i].readIndex < |s.queues[i].messages| && s.queues[i].writeIndex < |s.queues[i].messages|
    requires v in s.procs && s.procs[v].state.WaitQueue?
    requires OnlyWoken(Refilled(s, i, v), Wake(Refilled(s, i, v), v, Accepted), [v], Accepted)
    requires s' == Urgent(Wake(Refilled(s, i, v), v, Accepted), v)
    ensures StillWaits(s, s', w, q, message) || Entered(s, s', w, q, message)
  {
    hide Wake;
    SenderKnown(s, w, q, message);
    assert QueueSound(s, i) && WaitsRightly(s, i, v) && Houses(s, InQueue(i));
    assert v in List(s, InQueue(i));
    if i == q && v != w {
      assert WaitsToSend(s, v, q, s.procs[v].state.message) && Entered(s, s', v, q, s.procs[v].state.message);
    }
  }

  lemma QueueSender(s: Sys, e: Event, s': Sys, w: int, q: int, message: int)
    requires Steady(s) && ActiveReady(s) && Did(s, e, s') && WaitsToSend(s, w, q, message)
    requires e.Creates? || e.Resets? || e.Deletes? || e.Sends? || e.Receives?
    ensures StillWaits(s, s', w, q, message) || Entered(s, s', w, q, message) || Refused(s, s', w, q)
  {
    hide Kept, NoneDying, WasResetTo, HasSent, HasReceived;
    SenderKnown(s, w, q, message);
    match e
    case Creates(i, n) => CreateLogs(s, i, n, s', q); CreateKept(s, i, n, s');
    case Resets(i) => ResetSender(s, i, s', w, q, message);
    case Deletes(i) => ResetSender(s, i, s', w, q, message);
    case Sends(i, m) => SendSender(s, i, m, s', w, q, message);
    case Receives(i, m) =>
      ReceiveSender(s, i, m, s', w, q, message);
  }

  lemma OtherSender(s: Sys, e: Event, s': Sys, w: int, q: int, message: int)
    requires Steady(s) && ActiveReady(s) && Did(s, e, s') && WaitsToSend(s, w, q, message)
    requires e.ReadsLine? || e.AwaitsLine? || e.Flushes? || e.Passes? || e.Ticks? || e.Refuses?
    ensures StillWaits(s, s', w, q, message)
  {
    hide Kept, NoneDying, WasFlushed, WasTimed;
    SenderKnown(s, w, q, message);
    match e
    case ReadsLine(_, _) =>
    case AwaitsLine => AwaitSender(s, s');
    case Flushes(text) => FlushLogs(s, text, s'); FlushSender(s, text, s', w);
    case Passes(clock) => TimeLogs(s, clock, s'); TimeSender(s, clock, s', w);
    case Ticks =>
    case Refuses =>
  }

  lemma AwaitSender(s: Sys, s': Sys)
    requires Kept(s) && ActiveReady(s) && Did(s, AwaitsLine, s')
    ensures SameLogs(s, s') && s'.procs == s.procs[s.active := s.procs[s.active].(state := WaitCons)]
  {
    AwaitLogs(s, s');
    SetConsoleKept(s, "", true);
    BlockProcs(s.(armed := true), WaitCons, s');
  }

  lemma FlushSender(s: Sys, text: seq<char>, s': Sys, w: int)
    requires Kept(s) && WasFlushed(s, text, s') && w in s.procs && w !in s.cons
    ensures w in s'.procs && s'.procs[w] == s.procs[w]
  {
    Waiting(s, OnConsole);
    WokenLogs(s, s.cons, ReadAgain);
    hide WakeEach;
    WokenFacts(s, WakeEach(s, s.cons, ReadAgain), s.cons, ReadAgain);
  }

  lemma TimeSender(s: Sys, clock: int, s': Sys, w: int)
    requires Kept(s) && WasTimed(s, clock, s') && w in s.procs && w !in s.sleepers
    ensures w in s'.procs && s'.procs[w] == s.procs[w]
  {
    var l := Due(s.procs, s.sleepers, clock);
    Waiting(s, Asleep);
    DuePrefix(s.procs, s.sleepers, clock);
    WokenLogs(s, l, Nothing);
    hide WakeEach;
    WokenFacts(s, TimeCame(s, clock), l, Nothing);
    assert forall p :: p in l ==> p in s.sleepers;
  }

  /** In each event a blocked sender keeps waiting, or its message goes in, or it is refused by a reset, or it dies.
      Only in the second case the queue gets its message. */
  lemma EventSender(s: Sys, e: Event, s': Sys, w: int, q: int, message: int)
    requires Steady(s) && ActiveReady(s) && Did(s, e, s') && WaitsToSend(s, w, q, message)
    ensures || StillWaits(s, s', w, q, message) || Entered(s, s', w, q, message)
            || Refused(s, s', w, q) || DiedWaiting(s, s', w, q)
  {
    hide Steady, ActiveReady, Did, WaitsToSend, StillWaits, Entered, Refused, DiedWaiting;
    if e.Creates? || e.Resets? || e.Deletes? || e.Sends? || e.Receives? {
      QueueSender(s, e, s', w, q, message);
    } else if e.ReadsLine? || e.AwaitsLine? || e.Flushes? || e.Passes? || e.Ticks? || e.Refuses? {
      OtherSender(s, e, s', w, q, message);
    } else {
      LifeSender(s, e, s', w, q, message);
    }
  }

  /** A process that waits to send in state i of a run waits in all states up to n, or there is a first event j at
      which it stops. Before that its message does not go in; at j it goes in exactly once, or not at all. */
  lemma {:induction false} SendsOnce(states: seq<Sys>, events: seq<Event>, i: nat, n: nat, w: int, q: int,
      message: int) returns (j: nat)
    requires IsRun(states, events) && i <= n < |states| && WaitsToSend(states[i], w, q, message)
    ensures i <= j <= n && forall k :: i <= k <= j ==> WaitsToSend(states[k], w, q, message)
    ensures forall k :: i <= k < j ==> StillWaits(states[k], states[k + 1], w, q, message)
    ensures j < n ==> || Entered(states[j], states[j + 1], w, q, message) || Refused(states[j], states[j + 1], w, q)
                      || DiedWaiting(states[j], states[j + 1], w, q)
    decreases n
  {
    assert |states| == |events| + 1;
    hide IsRun, StillWaits, Entered, Refused, DiedWaiting;
    if i == n {
      j := i;
    } else {
      j := SendsOnce(states, events, i, n - 1, w, q, message);
      if j == n - 1 {
        NextSender(states, events, j, w, q, message);
        if StillWaits(states[j], states[n], w, q, message) {
          StillWaiting(states[j], states[n], w, q, message);
          j := n;
        }
      }
    }
  }

  lemma StillWaiting(s: Sys, s': Sys, w: int, q: int, message: int)
    requires StillWaits(s, s', w, q, message)
    ensures WaitsToSend(s', w, q, message)
  {
  }

  lemma NextSender(states: seq<Sys>, events: seq<Event>, i: nat, w: int, q: int, message: int)
    requires IsRun(states, events) && i < |events| && WaitsToSend(states[i], w, q, message)
    ensures var s, s' := states[i], states[i + 1];
            || StillWaits(s, s', w, q, message) || Entered(s, s', w, q, message)
            || Refused(s, s', w, q) || DiedWaiting(s, s', w, q)
  {
    RunKept(states, events, i);
    assert EventAt(states, events, i);
    hide Steady, ActiveReady, Did, StillWaits, Entered, Refused, DiedWaiting;
    EventSender(states[i], events[i], states[i + 1], w, q, message);
  }
}
