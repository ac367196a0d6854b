/** Messages on their way: what each event does to the buffers, and where a message is until a receiver has it. */
module ProcessFlows {
  import opened Lists
  import opened Processes
  import opened ProcessTree
  import opened ProcessOrder
  import opened MessageQueues
  import opened ProcessState
  import opened ProcessSteps
  import opened ProcessLife
  import opened ProcessDeath
  import opened ProcessSwitch
  import opened ProcessAway
  import opened ProcessQueues
  import opened ProcessSteady
  import opened ProcessKernel
  import opened ProcessHistory
  import opened ProcessEffects
  import opened WaitOrder

  // ----- the buffers after an event -----

  /** The queues differ in who waits at them only, and nothing went in or came out. */
  ghost predicate SameBuffers(s: Sys, s': Sys) {
    && s'.queues.Keys == s.queues.Keys && s'.sent == s.sent && s'.got == s.got
    && forall q :: q in s.queues ==> s'.queues[q] == s.queues[q].(waiters := s'.queues[q].waiters)
  }

  lemma OutBuffers(s: Sys, k: set<int>, s': Sys)
    requires OutOfLists(s, k, s')
    ensures SameBuffers(s, s')
  {
  }

  lemma MoveBuffers(s: Sys, p: int, pc: Proc)
    requires p in s.procs && HasHome(s, p) && CanEnter(s, pc)
    ensures SameBuffers(s, Move(s, p, pc))
  {
    MoveFields(s, p, pc);
    hide Move;
  }

  lemma ThenBuffers(s: Sys, t: Sys, s': Sys)
    requires SameBuffers(s, t) && SameBuffers(t, s')
    ensures SameBuffers(s, s')
  {
    forall q | q in s.queues
      ensures s'.queues[q] == s.queues[q].(waiters := s'.queues[q].waiters)
    {
      assert t.queues[q] == s.queues[q].(waiters := t.queues[q].waiters);
    }
  }

  lemma ToldBuffers(s: Sys, p: int)
    requires Kept(s) && p in s.procs
    ensures SameBuffers(s, ParentTold(s, p))
  {
    if Awaited(s.procs, p) {
      var a := s.procs[p].parent;
      assert HasHome(s, a);
      MoveBuffers(s, a, s.procs[a].(state := Sched(ReapChild(p))));
    }
  }

  lemma DeathBuffers(s: Sys, e: Event, s': Sys)
    requires Kept(s) && ActiveReady(s) && Did(s, e, s') && (e.Exits? || e.Kills?)
    ensures SameBuffers(s, s')
  {
    hide Kept, ParentTold, Killed, Subtree, OutOfLists, SameBuffers, LeftAs, SwitchedTo;
    KeptHomed(s);
    var p := if e.Exits? then s.active else e.pid;
    ToldZombies(s, p);
    ToldBuffers(s, p);
    var t := ParentTold(s, p);
    if e.Exits? {
      ExitedIs(s, e.code);
      KilledLists(t, p, e.code);
      OutActive(t, Subtree(t, p), Killed(t, p, e.code), s'.active);
      OutBuffers(t, Subtree(t, p), s');
    } else if s.active in Subtree(s, p) {
      var r :| SwitchedAway(t, p, r) && s' == AsStored(r);
      OutStored(t, ReachedSet(t, p), r);
      OutBuffers(t, ReachedSet(t, p), s');
    } else {
      KilledLists(t, p, 0);
      OutBuffers(t, Subtree(t, p), s');
    }
    ThenBuffers(s, t, s');
  }

  lemma WakeBuffers(s: Sys, l: seq<int>, r: Resume)
    requires Kept(s) && NoDups(l) && !r.ReapChild? && forall p :: p in l ==> p in s.procs && !s.procs[p].state.Zombie?
    ensures SameBuffers(s, WakeEach(s, l, r))
  {
    hide Kept, WakeEach;
    WakeList(s, l, r);
  }

  lemma FlushBuffers(s: Sys, text: seq<char>, s': Sys)
    requires Kept(s) && WasFlushed(s, text, s')
    ensures SameBuffers(s, s')
  {
    hide Kept, WakeEach;
    KeptHomed(s);
    Waiting(s, OnConsole);
    WakeBuffers(s, s.cons, ReadAgain);
  }

  lemma TimeBuffers(s: Sys, clock: int, s': Sys)
    requires Kept(s) && WasTimed(s, clock, s')
    ensures SameBuffers(s, s')
  {
    hide Kept, WakeEach, Due, SleepSorted;
    SleepersKnown(s);
    Waiting(s, Asleep);
    DuePrefix(s.procs, s.sleepers, clock);
    WakeBuffers(s, Due(s.procs, s.sleepers, clock), Nothing);
  }

  lemma BlockBuffers(s: Sys, state: State, s': Sys)
    requires Kept(s) && ActiveReady(s) && DidBlock(s, state, s')
    ensures SameBuffers(s, s')
  {
    var pc := s.procs[s.active].(state := state);
    assert HasHome(s, s.active);
    MoveBuffers(s, s.active, pc);
  }

  lemma RankBuffers(s: Sys, p: int, k: int)
    requires Kept(s) && p in s.procs && 0 <= k < MAX_PRIORITY
    ensures SameBuffers(s, Ranked(s, p, k))
  {
    assert HasHome(s, p);
    MoveBuffers(s, p, s.procs[p].(priority := k));
    RerankedKept(s, p, k);
  }

  /** Only the calls on queues touch a buffer. */
  lemma OtherBuffers(s: Sys, e: Event, s': Sys)
    requires Kept(s) && ActiveReady(s) && Did(s, e, s')
    requires !(e.Creates? || e.Resets? || e.Deletes? || e.Sends? || e.Receives?)
    ensures SameBuffers(s, s')
  {
    hide Kept, SameBuffers;
    if e.Exits? || e.Kills? {
      DeathBuffers(s, e, s');
    } else {
      match e
      case Starts(p, k) => EnterRing(s, p, Newborn(s.active, k)); LikeQueues(s, s');
      case Ranks(p, k) => RankBuffers(s, p, k);
      case Blocks(state) => BlockBuffers(s, state, s');
      case AwaitsLine => SetConsoleKept(s, "", true); BlockBuffers(s.(armed := true), WaitCons, s'); LikeArmed(s, s');
      case Flushes(text) => FlushBuffers(s, text, s');
      case Passes(clock) => TimeBuffers(s, clock, s');
      case _ => LikeQueues(s, s');
    }
  }

  lemma LikeQueues(s: Sys, s': Sys)
    requires s'.queues == s.queues && s'.sent == s.sent && s'.got == s.got
    ensures SameBuffers(s, s')
  {
  }

  lemma LikeArmed(s: Sys, s': Sys)
    requires SameBuffers(s.(armed := true), s')
    ensures SameBuffers(s, s')
  {
  }

  /** The messages of a queue, oldest first, after an event. */
  ghost function NextContents(s: Sys, e: Event, q: int): seq<int>
    requires q in s.queues && QueueOk(s.queues[q])
  {
    var c, first := Contents(s.queues[q]), Movers(s, e);
    match e
    case Resets(i) => if i == q then [] else c
    case Sends(i, m) => if i == q && first == [] then c + [m] else c
    case Receives(i, _) => if i != q || c == [] then c else c[1..] + SentBy(s.procs, first)
    case _ => c
  }

  /** The messages that some processes wait to send. */
  function SentBy(ps: Procs, l: seq<int>): seq<int> {
    if l == [] then []
    else (if l[0] in ps && ps[l[0]].state.WaitQueue? then [ps[l[0]].state.message] else []) + SentBy(ps, l[1..])
  }

  /** The messages that come out of a queue in an event. */
  ghost function ComesOut(s: Sys, e: Event, q: int): seq<int> {
    match e
    case Sends(i, m) => if i == q && Movers(s, e) != [] then [m] else []
    case Receives(i, m) => if i == q then [m] else []
    case _ => []
  }

  /** The messages that go into a queue in an event. */
  ghost function GoesIn(s: Sys, e: Event, q: int): seq<int> {
    match e
    case Sends(i, m) => if i == q then [m] else []
    case Receives(i, _) => if i == q then SentBy(s.procs, Movers(s, e)) else []
    case _ => []
  }

  /** The buffer of a queue, and what went in and came out since it was created or reset. */
  ghost predicate BufferAs(s: Sys, e: Event, s': Sys, q: int)
    requires q in s.queues && q in s'.queues && q in s.sent && q in s.got && QueueOk(s.queues[q])
  {
    && QueueOk(s'.queues[q]) && s'.queues[q].capacity == s.queues[q].capacity && q in s'.sent && q in s'.got
    && Contents(s'.queues[q]) == NextContents(s, e, q)
    && if e == Resets(q) then s'.sent[q] == s'.got[q] == []
       else s'.sent[q] == s.sent[q] + GoesIn(s, e, q) && s'.got[q] == s.got[q] + ComesOut(s, e, q)
  }

  lemma QueueThere(s: Sys, q: int)
    requires Kept(s) && q in s.queues
    ensures QueueOk(s.queues[q]) && q in s.sent && q in s.got
  {
    assert QueueSound(s, q);
  }

  lemma SameBuffer(s: Sys, e: Event, s': Sys, q: int)
    requires Kept(s) && ActiveReady(s) && q in s.queues && q in s'.queues && q in s.sent && q in s.got
    requires QueueOk(s.queues[q]) && s'.queues[q] == s.queues[q].(waiters := s'.queues[q].waiters)
    requires q in s'.sent && q in s'.got && s'.sent[q] == s.sent[q] && s'.got[q] == s.got[q]
    requires e.Resets? || e.Sends? || e.Receives? ==> e.queue != q
    ensures BufferAs(s, e, s', q)
  {
    assert Contents(s'.queues[q]) == Contents(s.queues[q]);
  }

  lemma ResetBuffers(s: Sys, i: int, s': Sys, q: int)
    requires Kept(s) && ActiveReady(s) && i in s.queues && q in s.queues && WasResetTo(s, i, Reset(s, i), s')
    ensures QueueOk(s.queues[q]) && q in s.sent && q in s.got && q in s'.queues && BufferAs(s, Resets(i), s', q)
  {
    hide Kept, WakeEach, Contents;
    QueueThere(s, q);
    KeptHomed(s);
    Waiting(s, InQueue(i));
    WakeBuffers(s, s.queues[i].waiters, WasReset);
    WaitersGone(s, i);
    if i == q {
      Emptied(s'.queues[q]);
    } else {
      SameBuffer(s, Resets(i), s', q);
    }
  }

  lemma Emptied(qu: Queue)
    requires qu.capacity > 0 && |qu.messages| == qu.capacity && qu == EmptyQueue(qu)
    ensures QueueOk(qu) && Contents(qu) == []
  {
  }

  lemma DeleteBuffers(s: Sys, i: int, s': Sys, q: int)
    requires Kept(s) && ActiveReady(s) && i in s.queues && q in s.queues && WasResetTo(s, i, Deleted(s, i), s')
    ensures QueueOk(s.queues[q]) && q in s.sent && q in s.got && s'.queues.Keys == s.queues.Keys - {i}
    ensures q != i ==> BufferAs(s, Deletes(i), s', q)
  {
    hide Kept, WakeEach, Contents;
    QueueThere(s, q);
    KeptHomed(s);
    Waiting(s, InQueue(i));
    WakeBuffers(s, s.queues[i].waiters, WasReset);
    if q != i {
      SameBuffer(s, Deletes(i), s', q);
    }
  }

  lemma SendBuffers(s: Sys, i: int, m: int, s': Sys, q: int)
    requires Kept(s) && ActiveReady(s) && Did(s, Sends(i, m), s') && q in s.queues
    ensures QueueOk(s.queues[q]) && q in s.sent && q in s.got && s'.queues.Keys == s.queues.Keys
    ensures BufferAs(s, Sends(i, m), s', q)
  {
    hide Kept, HasHanded, Contents;
    QueueThere(s, q);
    QueueThere(s, i);
    if s.queues[i].length == 0 && s.queues[i].waiters != [] {
      HandBuffers(s, i, m, s', q);
    } else if i != q {
      SameBuffer(s, Sends(i, m), s', q);
    } else {
      WriteAppends(s.queues[q], m);
    }
  }

  lemma HandBuffers(s: Sys, i: int, m: int, s': Sys, q: int)
    requires Kept(s) && ActiveReady(s) && i in s.queues && s.queues[i].length == 0 && s.queues[i].waiters != []
    requires HasHanded(s, i, m, s') && q in s.queues && QueueOk(s.queues[q]) && q in s.sent && q in s.got
    ensures s'.queues.Keys == s.queues.Keys && BufferAs(s, Sends(i, m), s', q)
  {
    hide Kept, Wake, LastOfHighest, First, Contents, Urgent, BufferAs;
    var w :| LastOfHighest(s.procs, s.queues[i].waiters, w) && s' == Urgent(HandedTo(s, i, w, m), w);
    FirstIs(s.procs, s.queues[i].waiters, w);
    LastIn(s.procs, s.queues[i].waiters, w);
    HandedKept(s, i, w, m);
    UrgentIs(HandedTo(s, i, w, m), w);
    RefilledContents(s.queues[q], s'.queues[q]);
    if i != q {
      SameBuffer(s, Sends(i, m), s', q);
    } else {
      HandedBuffer(s, q, m, s');
    }
  }

  lemma HandedBuffer(s: Sys, q: int, m: int, s': Sys)
    requires Kept(s) && ActiveReady(s) && q in s.queues && s.queues[q].length == 0 && s.queues[q].waiters != []
    requires QueueOk(s.queues[q]) && q in s.sent && q in s.got && q in s'.queues && q in s'.sent && q in s'.got
    requires s'.queues[q] == s.queues[q].(waiters := s'.queues[q].waiters) && QueueOk(s'.queues[q])
    requires Contents(s'.queues[q]) == Contents(s.queues[q])
    requires s'.sent[q] == s.sent[q] + [m] && s'.got[q] == s.got[q] + [m]
    ensures BufferAs(s, Sends(q, m), s', q)
  {
    hide Kept;
    assert Movers(s, Sends(q, m)) != [];
  }

  lemma ReceiveBuffers(s: Sys, i: int, m: int, s': Sys, q: int)
    requires Kept(s) && ActiveReady(s) && Did(s, Receives(i, m), s') && q in s.queues
    ensures QueueOk(s.queues[q]) && q in s.sent && q in s.got && s'.queues.Keys == s.queues.Keys
    ensures BufferAs(s, Receives(i, m), s', q)
    ensures QueueOk(s.queues[i]) && Contents(s.queues[i]) != [] && m == Contents(s.queues[i])[0]
  {
    hide Kept, HasRefilled, Contents;
    QueueThere(s, q);
    QueueThere(s, i);
    ReadTakesFirst(s.queues[i]);
    if s.queues[i].length == s.queues[i].capacity && s.queues[i].waiters != [] {
      RefillBuffers(s, i, m, s', q);
    } else if i != q {
      SameBuffer(s, Receives(i, m), s', q);
    } else {
      assert Movers(s, Receives(i, m)) == [];
    }
  }

  lemma RefillBuffers(s: Sys, i: int, m: int, s': Sys, q: int)
    requires Kept(s) && ActiveReady(s) && i in s.queues && s.queues[i].length == s.queues[i].capacity
    requires s.queues[i].waiters != [] && HasRefilled(s, i, s') && q in s.queues
    requires QueueOk(s.queues[q]) && q in s.sent && q in s.got && QueueOk(s.queues[i])
    requires m == s.queues[i].messages[s.queues[i].readIndex]
    ensures s'.queues.Keys == s.queues.Keys && BufferAs(s, Receives(i, m), s', q)
  {
    hide Kept, Wake, LastOfHighest, First, Contents, Urgent, BufferAs;
    var w :| LastOfHighest(s.procs, s.queues[i].waiters, w) && w in s.procs && s.procs[w].state.WaitQueue?
             && s' == Urgent(Wake(Refilled(s, i, w), w, Accepted), w);
    FirstIs(s.procs, s.queues[i].waiters, w);
    LastIn(s.procs, s.queues[i].waiters, w);
    RefilledKept(s, i, w);
    UrgentIs(Wake(Refilled(s, i, w), w, Accepted), w);
    if i != q {
      SameBuffer(s, Receives(i, m), s', q);
    } else {
      ReadTakesFirst(s.queues[q]);
      WriteAppends(RawRead(s.queues[q]), s.procs[w].state.message);
      RefilledContents(Refilled(s, q, w).queues[q], s'.queues[q]);
      RefilledBuffer(s, q, m, s', w);
    }
  }

  lemma RefilledBuffer(s: Sys, q: int, m: int, s': Sys, w: int)
    requires Kept(s) && ActiveReady(s) && q in s.queues && s.queues[q].length == s.queues[q].capacity
    requires QueueOk(s.queues[q]) && q in s.sent && q in s.got && q in s'.queues && q in s'.sent && q in s'.got
    requires First(s.procs, s.queues[q].waiters) == [w] && w in s.procs && s.procs[w].state.WaitQueue?
    requires QueueOk(s'.queues[q]) && s'.queues[q].capacity == s.queues[q].capacity
    requires Contents(s.queues[q]) != [] && m == Contents(s.queues[q])[0]
    requires Contents(s'.queues[q]) == Contents(s.queues[q])[1..] + [s.procs[w].state.message]
    requires s'.sent[q] == s.sent[q] + [s.procs[w].state.message] && s'.got[q] == s.got[q] + [m]
    ensures BufferAs(s, Receives(q, m), s', q)
  {
    hide Kept, First, Contents;
    OneSent(s.procs, w);
    assert Movers(s, Receives(q, m)) == [w];
  }

  lemma UrgentIs(s: Sys, w: int)
    ensures Urgent(s, w) == s.(active := Urgent(s, w).active)
  {
  }

  lemma RefilledContents(a: Queue, b: Queue)
    requires QueueOk(a) && b == a.(waiters := b.waiters)
    ensures QueueOk(b) && Contents(b) == Contents(a)
  {
  }

  lemma OneSent(ps: Procs, w: int)
    requires w in ps && ps[w].state.WaitQueue?
    ensures SentBy(ps, [w]) == [ps[w].state.message]
  {
    assert [w][1..] == [];
  }

  /** A new queue is empty, and nobody waits at it. */
  lemma NewBuffer(s: Sys, q: int, n: int, s': Sys)
    requires Kept(s) && ActiveReady(s) && Did(s, Creates(q, n), s')
    ensures s'.queues.Keys == NextQueues(s, Creates(q, n)) && q !in s.queues && s'.queues[q].waiters == []
    ensures QueueOk(s'.queues[q]) && s'.queues[q].capacity == n && Contents(s'.queues[q]) == []
    ensures q in s'.sent && q in s'.got && s'.sent[q] == s'.got[q] == []
  {
    hide Kept;
    var qu :| FreshQueue(qu, n) && s' == SetQueue(s, q, qu, [], []);
  }

  /** The queues that there are after an event. */
  ghost function NextQueues(s: Sys, e: Event): set<int> {
    match e
    case Creates(q, _) => s.queues.Keys + {q}
    case Deletes(q) => s.queues.Keys - {q}
    case _ => s.queues.Keys
  }

  /** Every event changes exactly these buffers: a send appends its message unless a receiver gets it at once, a
      receive takes the oldest one and appends that of the sender which is let in, a reset empties. */
  lemma EventBuffers(s: Sys, e: Event, s': Sys, q: int)
    requires Kept(s) && ActiveReady(s) && Did(s, e, s') && q in s.queues
    ensures s'.queues.Keys == NextQueues(s, e) && QueueOk(s.queues[q]) && q in s.sent && q in s.got
    ensures q in s'.queues ==> BufferAs(s, e, s', q)
    ensures e.Receives? && e.queue == q ==> Contents(s.queues[q]) != [] && e.message == Contents(s.queues[q])[0]
  {
    hide Kept, ActiveReady, BufferAs;
    QueueThere(s, q);
    if e.Creates? || e.Resets? || e.Deletes? || e.Sends? || e.Receives? {
      match e
      case Creates(i, n) => CreateBuffers(s, i, n, s', q);
      case Resets(i) => ResetBuffers(s, i, s', q); ResetKept(s, i);
      case Deletes(i) => DeleteBuffers(s, i, s', q);
      case Sends(i, m) => SendBuffers(s, i, m, s', q);
      case Receives(i, m) => ReceiveBuffers(s, i, m, s', q);
    } else {
      OtherBuffers(s, e, s');
      SameBuffer(s, e, s', q);
    }
  }

  lemma CreateBuffers(s: Sys, i: int, n: int, s': Sys, q: int)
    requires Kept(s) && ActiveReady(s) && Did(s, Creates(i, n), s') && q in s.queues
    ensures QueueOk(s.queues[q]) && q in s.sent && q in s.got && s'.queues.Keys == s.queues.Keys + {i}
    ensures BufferAs(s, Creates(i, n), s', q)
  {
    hide Kept;
    QueueThere(s, q);
    var qu :| FreshQueue(qu, n) && s' == SetQueue(s, i, qu, [], []);
    SameBuffer(s, Creates(i, n), s', q);
  }

  // ----- messages that a receiver holds -----

  /** The processes that hold a message of a queue: it was handed to them while they were blocked, and they have not
      gone on since. */
  ghost function Holders(s: Sys, q: int, m: int): set<int> {
    set p | p in s.procs && s.procs[p].state == Sched(Handed(q, m))
  }

  /** The messages of a queue that receivers are given as their answers in an event. */
  function Answers(s: Sys, e: Event, q: int): seq<int> {
    if e.Receives? && e.queue == q then [e.message]
    else if e.Resumes? && e.answer.Received? && s.active in s.procs && HoldsFrom(s.procs[s.active], q)
        then [e.answer.message]
    else []
  }

  predicate HoldsFrom(pc: Proc, q: int) { pc.state.Sched? && pc.state.resume.Handed? && pc.state.resume.queue == q }

  /** The holders that die in an event. */
  ghost function Lost(s: Sys, e: Event, q: int, m: int): set<int> {
    set p | p in Holders(s, q, m) && (p in Vanished(s, e) || p == Victim(s, e))
  }

  lemma HoldersAfter(s: Sys, e: Event, s': Sys, q: int, m: int)
    requires Steady(s) && ActiveReady(s) && Did(s, e, s')
    ensures Holders(s', q, m) == Holders(s, q, m) - Lost(s, e, q, m) - (if e.Resumes? then {s.active} else {})
        + (if e == Sends(q, m) then Members(Movers(s, e)) else {})
  {
    forall p
      ensures p in Holders(s', q, m) <==>
          (p in Holders(s, q, m) && p !in Lost(s, e, q, m) && !(e.Resumes? && p == s.active))
          || (e == Sends(q, m) && p in Movers(s, e))
    {
      HolderAfter(s, e, s', q, m, p);
    }
  }

  lemma HolderAfter(s: Sys, e: Event, s': Sys, q: int, m: int, p: int)
    requires Steady(s) && ActiveReady(s) && Did(s, e, s')
    ensures p in Holders(s', q, m) <==>
        (p in Holders(s, q, m) && p !in Lost(s, e, q, m) && !(e.Resumes? && p == s.active))
        || (e == Sends(q, m) && p in Movers(s, e))
  {
    hide Kept, NoneDying, RecordAs, Did;
    EventRecords(s, e, s', p);
    if e.Kills? || e.Exits? {
      WakingWaits(s, e);
      DeathHolder(s, e, s', q, m, p);
    } else if e.Sends? || e.Receives? {
      MoversWait(s, e, s');
      NoVictim(s, e);
      CallHolder(s, e, s', q, m, p);
    } else {
      NoVictim(s, e);
      DidKnown(s, e, s');
      OtherHolder(s, e, s', q, m, p);
    }
  }

  lemma DidKnown(s: Sys, e: Event, s': Sys)
    requires Kept(s) && ActiveReady(s) && Did(s, e, s')
    ensures e.Resumes? ==> !s.procs[s.active].state.resume.ReapChild?
    ensures e.ReapsLater? ==> s.procs[s.active].state == Sched(ReapChild(e.pid))
    ensures e.Reaps? || e.ReapsLater? ==> e.pid in s.procs && s.procs[e.pid].state.Zombie?
    ensures e.Blocks? || e.AwaitsLine? ==> s.procs[s.active].state == Sched(Nothing)
    ensures e.Blocks? ==> !e.state.Sched?
    ensures e.Ranks? ==> e.pid in s.procs
  {
    hide Kept;
  }

  lemma DeathHolder(s: Sys, e: Event, s': Sys, q: int, m: int, p: int)
    requires e.Kills? || e.Exits?
    requires forall w :: w in Movers(s, e) ==> w in s.procs && s.procs[w].state.WaitChild?
    requires RecordAs(s, e, s', p)
    ensures p in Holders(s', q, m) <==> p in Holders(s, q, m) && p !in Lost(s, e, q, m)
  {
    hide Movers, Vanished, Subtree, NextChildren;
  }

  lemma CallHolder(s: Sys, e: Event, s': Sys, q: int, m: int, p: int)
    requires (e.Sends? || e.Receives?) && RecordAs(s, e, s', p) && Vanished(s, e) == {} && Victim(s, e) !in s.procs
    requires forall w :: w in Movers(s, e) ==> w in s.procs && s.procs[w].state.WaitQueue?
    ensures p in Holders(s', q, m) <==>
        (p in Holders(s, q, m) && p !in Lost(s, e, q, m)) || (e == Sends(q, m) && p in Movers(s, e))
  {
    hide Movers, Vanished, Victim, NextChildren;
  }

  lemma OtherHolder(s: Sys, e: Event, s': Sys, q: int, m: int, p: int)
    requires Kept(s) && ActiveReady(s) && RecordAs(s, e, s', p) && Victim(s, e) !in s.procs
    requires !e.Kills? && !e.Exits? && !e.Sends? && !e.Receives?
    requires !e.Reaps? && !e.ReapsLater? ==> Vanished(s, e) == {}
    requires e.Resumes? ==> !s.procs[s.active].state.resume.ReapChild?
    requires e.ReapsLater? ==> s.procs[s.active].state == Sched(ReapChild(e.pid))
    requires e.Reaps? || e.ReapsLater? ==> e.pid in s.procs && s.procs[e.pid].state.Zombie?
    requires e.Blocks? || e.AwaitsLine? ==> s.procs[s.active].state == Sched(Nothing)
    requires e.Blocks? ==> !e.state.Sched?
    ensures p in Holders(s', q, m) <==>
        p in Holders(s, q, m) && p !in Lost(s, e, q, m) && !(e.Resumes? && p == s.active)
  {
    hide Kept, Movers, Victim, NextChildren;
    if e.Reaps? || e.ReapsLater? {
      ReapedOnly(s, e);
    }
    hide Vanished;
  }

  lemma WakingWaits(s: Sys, e: Event)
    requires e.Kills? || e.Exits?
    ensures forall p :: p in Movers(s, e) ==> p in s.procs && s.procs[p].state.WaitChild?
  {
  }

  lemma ReapedOnly(s: Sys, e: Event)
    requires e.Reaps? || e.ReapsLater?
    ensures Vanished(s, e) == {e.pid}
  {
  }

  /** A receiver that gets a message at once was waiting for it. */
  lemma MoversWait(s: Sys, e: Event, s': Sys)
    requires Kept(s) && ActiveReady(s) && Did(s, e, s')
    ensures e.Sends? || e.Receives? ==> |Movers(s, e)| <= 1 && e.queue in s.queues
    ensures e.Sends? || e.Receives? ==> forall p :: p in Movers(s, e) ==>
        p in s.procs && s.procs[p].state.WaitQueue? && s.procs[p].state.queue == e.queue
        && p in s.queues[e.queue].waiters && p != s.active
  {
    hide Kept, First, HasSent, HasReceived;
    if e.Sends? || e.Receives? {
      KeptHomed(s);
      Waiting(s, InQueue(e.queue));
      FirstIn(s.procs, s.queues[e.queue].waiters);
    }
  }

  lemma FirstIn(ps: Procs, l: seq<int>)
    ensures |First(ps, l)| <= 1 && forall p :: p in First(ps, l) ==> p in l
  {
  }

  lemma OneLess(a: set<int>, p: int)
    ensures |a - {p}| == |a| - if p in a then 1 else 0
  {
    if p in a {
      assert a == (a - {p}) + {p};
    } else {
      assert a - {p} == a;
    }
  }

  lemma SomeLess(a: set<int>, b: set<int>)
    requires b <= a
    ensures |a - b| == |a| - |b|
  {
    assert a == (a - b) + b;
  }

  /** In each event the messages that come out of a queue, and those that receivers held before, are those that they
      are given as answers, those that they hold now, and those of holders that die. */
  lemma EventHeld(s: Sys, e: Event, s': Sys, q: int, m: int)
    requires Steady(s) && ActiveReady(s) && Did(s, e, s')
    ensures multiset(ComesOut(s, e, q))[m] + |Holders(s, q, m)| ==
        multiset(Answers(s, e, q))[m] + |Holders(s', q, m)| + |Lost(s, e, q, m)|
  {
    hide *;
    if e.Resumes? {
      HeldGoesOn(s, e, s', q, m);
    } else if e == Sends(q, m) && Movers(s, e) != [] {
      HeldComes(s, e, s', q, m);
    } else {
      HeldStays(s, e, s', q, m);
    }
  }

  lemma HeldGoesOn(s: Sys, e: Event, s': Sys, q: int, m: int)
    requires Steady(s) && ActiveReady(s) && Did(s, e, s') && e.Resumes?
    ensures multiset(ComesOut(s, e, q))[m] + |Holders(s, q, m)| ==
        multiset(Answers(s, e, q))[m] + |Holders(s', q, m)| + |Lost(s, e, q, m)|
  {
    hide Kept, NoneDying, Did, ActiveReady, Holders, Lost, ComesOut, Answers;
    HoldersAfter(s, e, s', q, m);
    LostHeld(s, e, s', q, m);
    AnswerHeld(s, e, s', q, m);
    OneLess(Holders(s, q, m), s.active);
    assert Holders(s', q, m) == Holders(s, q, m) - {s.active};
  }

  lemma HeldComes(s: Sys, e: Event, s': Sys, q: int, m: int)
    requires Steady(s) && ActiveReady(s) && Did(s, e, s') && e == Sends(q, m) && Movers(s, e) != []
    ensures multiset(ComesOut(s, e, q))[m] + |Holders(s, q, m)| ==
        multiset(Answers(s, e, q))[m] + |Holders(s', q, m)| + |Lost(s, e, q, m)|
  {
    hide Kept, NoneDying, Did, ActiveReady, Holders, Lost, ComesOut, Answers, Movers;
    HoldersAfter(s, e, s', q, m);
    LostHeld(s, e, s', q, m);
    MoversWait(s, e, s');
    OneMember(Movers(s, e));
    var w := Movers(s, e)[0];
    NotHeld(s, q, m, w);
    HandsOver(s, e, q, m);
    assert Holders(s', q, m) == Holders(s, q, m) + {w};
  }

  lemma HeldStays(s: Sys, e: Event, s': Sys, q: int, m: int)
    requires Steady(s) && ActiveReady(s) && Did(s, e, s') && !e.Resumes? && (e == Sends(q, m) ==> Movers(s, e) == [])
    ensures multiset(ComesOut(s, e, q))[m] + |Holders(s, q, m)| ==
        multiset(Answers(s, e, q))[m] + |Holders(s', q, m)| + |Lost(s, e, q, m)|
  {
    hide Kept, NoneDying, Did, ActiveReady, Holders, Lost, ComesOut, Answers, Movers;
    HoldersAfter(s, e, s', q, m);
    LostHeld(s, e, s', q, m);
    CountsAgree(s, e, q, m);
    NoMember(s, e, q, m);
    assert Holders(s', q, m) == Holders(s, q, m) - Lost(s, e, q, m);
    SomeLess(Holders(s, q, m), Lost(s, e, q, m));
  }

  lemma OneMember(l: seq<int>)
    requires |l| == 1
    ensures l[0] in l && Members(l) == {l[0]}
  {
  }

  lemma NoMember(s: Sys, e: Event, q: int, m: int)
    requires e == Sends(q, m) ==> Movers(s, e) == []
    ensures (if e == Sends(q, m) then Members(Movers(s, e)) else {}) == {}
  {
    hide Movers;
  }

  lemma LostHeld(s: Sys, e: Event, s': Sys, q: int, m: int)
    requires Kept(s) && ActiveReady(s) && Did(s, e, s')
    ensures Lost(s, e, q, m) <= Holders(s, q, m)
    ensures !e.Kills? && !e.Exits? ==> Lost(s, e, q, m) == {}
  {
    hide Kept, Did;
    DidKnown(s, e, s');
    if !e.Kills? && !e.Exits? {
      NoVictim(s, e);
      if e.Reaps? || e.ReapsLater? {
        ReapedOnly(s, e);
      }
    }
    hide Vanished, Victim;
  }

  /** The active process goes on: it gets the message that it holds, if it does. */
  lemma AnswerHeld(s: Sys, e: Event, s': Sys, q: int, m: int)
    requires Kept(s) && ActiveReady(s) && Did(s, e, s') && e.Resumes?
    ensures ComesOut(s, e, q) == [] && multiset(Answers(s, e, q))[m] == if s.active in Holders(s, q, m) then 1 else 0
  {
    hide Kept;
  }

  lemma HandsOver(s: Sys, e: Event, q: int, m: int)
    requires e == Sends(q, m) && Movers(s, e) != []
    ensures multiset(ComesOut(s, e, q))[m] == 1 && multiset(Answers(s, e, q))[m] == 0
  {
    hide Movers;
  }

  lemma CountsAgree(s: Sys, e: Event, q: int, m: int)
    requires !e.Resumes? && (e == Sends(q, m) ==> Movers(s, e) == [])
    ensures multiset(ComesOut(s, e, q))[m] == multiset(Answers(s, e, q))[m]
  {
    hide Movers;
  }

  lemma NotHeld(s: Sys, q: int, m: int, w: int)
    requires w in s.procs && s.procs[w].state.WaitQueue?
    ensures w !in Holders(s, q, m)
  {
  }

  /** A message that is sent to an empty queue where somebody waits is handed to the process that is first in line, and
      every other record stays as it was. */
  lemma SendHands(s: Sys, q: int, m: int, s': Sys)
    requires Steady(s) && ActiveReady(s) && Did(s, Sends(q, m), s')
    requires q in s.queues && s.queues[q].length == 0 && s.queues[q].waiters != []
    ensures var l := s.queues[q].waiters; var w := l[LastHighest(Line(s.procs, l))];
            w in s.procs && s'.procs == s.procs[w := s.procs[w].(state := Sched(Handed(q, m)))]
  {
    hide Kept, NoneDying, Did, LastHighest, Vanished, Victim;
    var e, l := Sends(q, m), s.queues[q].waiters;
    var w := l[LastHighest(Line(s.procs, l))];
    MoversWait(s, e, s');
    assert Movers(s, e) == [w] && w in Movers(s, e);
    NoVictim(s, e);
    forall x
      ensures x in s'.procs <==> x in s.procs
      ensures x in s.procs && x in s'.procs ==>
          s'.procs[x] == s.procs[x].(state := if x == w then Sched(Handed(q, m)) else s.procs[x].state)
    {
      EventRecords(s, e, s', x);
      if x in s.procs {
        WithoutNone(s.procs[x].children, {});
      }
    }
  }

  // ----- over whole runs -----

  /** The messages that went into a queue, that came out of it, and that receivers got as answers, in the first i
      events of a run. */
  ghost function AllIn(states: seq<Sys>, events: seq<Event>, q: int, i: nat): seq<int>
    requires i <= |events| <= |states|
  {
    if i == 0 then [] else AllIn(states, events, q, i - 1) + GoesIn(states[i - 1], events[i - 1], q)
  }

  ghost function AllOut(states: seq<Sys>, events: seq<Event>, q: int, i: nat): seq<int>
    requires i <= |events| <= |states|
  {
    if i == 0 then [] else AllOut(states, events, q, i - 1) + ComesOut(states[i - 1], events[i - 1], q)
  }

  ghost function AllAnswers(states: seq<Sys>, events: seq<Event>, q: int, i: nat): seq<int>
    requires i <= |events| <= |states|
  {
    if i == 0 then [] else AllAnswers(states, events, q, i - 1) + Answers(states[i - 1], events[i - 1], q)
  }

  /** How many processes died while they held this message of a queue. */
  ghost function AllLost(states: seq<Sys>, events: seq<Event>, q: int, m: int, i: nat): nat
    requires i <= |events| <= |states|
  {
    if i == 0 then 0 else AllLost(states, events, q, m, i - 1) + |Lost(states[i - 1], events[i - 1], q, m)|
  }

  lemma ActiveThere(states: seq<Sys>, events: seq<Event>, i: nat)
    requires IsRun(states, events) && i < |events|
    ensures |states| == |events| + 1 && Steady(states[i]) && ActiveReady(states[i])
    ensures Did(states[i], events[i], states[i + 1])
  {
    RunKept(states, events, i);
    assert EventAt(states, events, i);
  }

  /** Over every run, what came out of a queue is what receivers got as answers, what they hold now, and what was lost
      with those that died; each message as often. */
  lemma {:induction false} RunHeld(states: seq<Sys>, events: seq<Event>, q: int, m: int, i: nat)
    requires IsRun(states, events) && i <= |events|
    ensures multiset(AllOut(states, events, q, i))[m] + |Holders(states[0], q, m)| ==
        multiset(AllAnswers(states, events, q, i))[m] + |Holders(states[i], q, m)| + AllLost(states, events, q, m, i)
  {
    hide *;
    RunSize(states, events);
    AllStep(states, events, q, m, i);
    if i > 0 {
      RunHeld(states, events, q, m, i - 1);
      NextHeld(states, events, q, m, i - 1);
    }
  }

  lemma RunSize(states: seq<Sys>, events: seq<Event>)
    requires IsRun(states, events)
    ensures |states| == |events| + 1
  {
  }

  /** The counts over one event more. */
  lemma AllStep(states: seq<Sys>, events: seq<Event>, q: int, m: int, i: nat)
    requires i <= |events| < |states|
    ensures i == 0 ==> multiset(AllOut(states, events, q, i))[m] == 0
    ensures i == 0 ==> multiset(AllAnswers(states, events, q, i))[m] == AllLost(states, events, q, m, i) == 0
    ensures i > 0 ==> var s, e := states[i - 1], events[i - 1];
        && multiset(AllOut(states, events, q, i))[m] ==
            multiset(AllOut(states, events, q, i - 1))[m] + multiset(ComesOut(s, e, q))[m]
        && multiset(AllAnswers(states, events, q, i))[m] ==
            multiset(AllAnswers(states, events, q, i - 1))[m] + multiset(Answers(s, e, q))[m]
        && AllLost(states, events, q, m, i) == AllLost(states, events, q, m, i - 1) + |Lost(s, e, q, m)|
  {
    hide ComesOut, Answers, Lost;
  }

  lemma NextHeld(states: seq<Sys>, events: seq<Event>, q: int, m: int, i: nat)
    requires IsRun(states, events) && i < |events| < |states|
    ensures multiset(ComesOut(states[i], events[i], q))[m] + |Holders(states[i], q, m)| ==
        multiset(Answers(states[i], events[i], q))[m] + |Holders(states[i + 1], q, m)|
        + |Lost(states[i], events[i], q, m)|
  {
    ActiveThere(states, events, i);
    hide *;
    EventHeld(states[i], events[i], states[i + 1], q, m);
  }

  /** A queue is there all the time, and is not reset. */
  ghost predicate InUse(states: seq<Sys>, events: seq<Event>, q: int, i: nat)
    requires i <= |events| < |states|
  {
    (forall j :: 0 <= j <= i ==> q in states[j].queues) && forall j :: 0 <= j < i ==> events[j] != Resets(q)
  }

  /** Over every run, for a queue that is not reset or deleted in it: the messages that were in it and those that went
      in are, in order, those that came out and those that are in it now. */
  lemma {:induction false} RunBuffer(states: seq<Sys>, events: seq<Event>, q: int, i: nat)
    requires IsRun(states, events) && i <= |events| < |states| && InUse(states, events, q, i)
    ensures QueueOk(states[0].queues[q]) && QueueOk(states[i].queues[q])
    ensures q in states[0].got && q in states[i].got
    ensures states[i].got[q] == states[0].got[q] + AllOut(states, events, q, i)
    ensures Contents(states[0].queues[q]) + AllIn(states, events, q, i) ==
        AllOut(states, events, q, i) + Contents(states[i].queues[q])
  {
    hide IsRun, ComesOut, GoesIn, Steady, ActiveReady, Did, Contents, QueueOk;
    RunKept(states, events, 0);
    SteadyQueue(states[0], q);
    if i > 0 {
      RunBuffer(states, events, q, i - 1);
      ActiveThere(states, events, i - 1);
      RunKept(states, events, i);
      var s, e, s' := states[i - 1], events[i - 1], states[i];
      SteadyQueue(s, q);
      SteadyQueue(s', q);
      StepBuffer(s, e, s', q);
      JoinBuffers(Contents(states[0].queues[q]), AllIn(states, events, q, i - 1), GoesIn(s, e, q),
                  AllOut(states, events, q, i - 1), Contents(s.queues[q]), ComesOut(s, e, q), Contents(s'.queues[q]));
    }
  }

  lemma JoinBuffers(a: seq<int>, typed: seq<int>, x: seq<int>, taken: seq<int>, f: seq<int>, y: seq<int>, f': seq<int>)
    requires a + typed == taken + f && f + x == y + f'
    ensures a + (typed + x) == (taken + y) + f'
  {
    assert a + (typed + x) == (a + typed) + x;
    assert (taken + f) + x == taken + (f + x);
    assert taken + (y + f') == (taken + y) + f';
  }

  lemma SteadyQueue(s: Sys, q: int)
    requires Steady(s) && q in s.queues
    ensures QueueOk(s.queues[q]) && q in s.sent && q in s.got && s.sent[q] == s.got[q] + Contents(s.queues[q])
    ensures Kept(s)
  {
    assert QueueSound(s, q);
  }

  lemma StepBuffer(s: Sys, e: Event, s': Sys, q: int)
    requires Steady(s) && Steady(s') && ActiveReady(s) && Did(s, e, s') && q in s.queues && q in s'.queues
    requires e != Resets(q)
    ensures QueueOk(s.queues[q]) && QueueOk(s'.queues[q]) && q in s.got && q in s'.got
    ensures s'.got[q] == s.got[q] + ComesOut(s, e, q)
    ensures Contents(s.queues[q]) + GoesIn(s, e, q) == ComesOut(s, e, q) + Contents(s'.queues[q])
  {
    hide Did, ActiveReady, GoesIn, ComesOut, Contents, NextContents, QueueOk, Steady;
    SteadyQueue(s, q);
    SteadyQueue(s', q);
    EventBuffers(s, e, s', q);
    assert (s.got[q] + Contents(s.queues[q])) + GoesIn(s, e, q) ==
        (s.got[q] + ComesOut(s, e, q)) + Contents(s'.queues[q]);
    CutFront(s.got[q], Contents(s.queues[q]) + GoesIn(s, e, q), ComesOut(s, e, q) + Contents(s'.queues[q])) by {
      assert s.got[q] + (Contents(s.queues[q]) + GoesIn(s, e, q)) ==
          (s.got[q] + Contents(s.queues[q])) + GoesIn(s, e, q);
      assert s.got[q] + (ComesOut(s, e, q) + Contents(s'.queues[q])) ==
          (s.got[q] + ComesOut(s, e, q)) + Contents(s'.queues[q]);
    }
  }

  lemma CutFront(a: seq<int>, b: seq<int>, c: seq<int>)
    requires a + b == a + c
    ensures b == c
  {
    assert b == (a + b)[|a|..] && c == (a + c)[|a|..];
  }

  ghost predicate Holds(s: Sys, w: int, q: int, m: int) { w in s.procs && s.procs[w].state == Sched(Handed(q, m)) }

  /** It goes on and gets exactly the message that it holds, or dies. */
  ghost predicate ReadsOrDies(s: Sys, e: Event, w: int, m: int) {
    (w == s.active && e == Resumes(Received(m))) || w in Vanished(s, e) || w == Victim(s, e)
  }

  /** A process that holds a message in state i of a run holds it in all states up to n, or there is a first event j at
      which it goes on and gets exactly that message as its answer, or dies. */
  lemma {:induction false} ReadsOnce(states: seq<Sys>, events: seq<Event>, i: nat, n: nat, w: int, q: int, m: int)
      returns (j: nat)
    requires IsRun(states, events) && i <= n < |states| && Holds(states[i], w, q, m)
    ensures i <= j <= n && forall k :: i <= k <= j ==> Holds(states[k], w, q, m)
    ensures j < n ==> j < |events| && ReadsOrDies(states[j], events[j], w, m)
    decreases n
  {
    assert |states| == |events| + 1;
    hide IsRun, Holds, ReadsOrDies;
    if i == n {
      j := i;
    } else {
      j := ReadsOnce(states, events, i, n - 1, w, q, m);
      if j == n - 1 {
        NextHolds(states, events, j, w, q, m);
        if Holds(states[n], w, q, m) {
          j := n;
        }
      }
    }
  }

  lemma NextHolds(states: seq<Sys>, events: seq<Event>, i: nat, w: int, q: int, m: int)
    requires IsRun(states, events) && i < |events| && Holds(states[i], w, q, m)
    ensures Holds(states[i + 1], w, q, m) || ReadsOrDies(states[i], events[i], w, m)
  {
    ActiveThere(states, events, i);
    hide Steady, ActiveReady, Did, Holds, ReadsOrDies;
    HoldsOn(states[i], events[i], states[i + 1], w, q, m);
  }

  lemma HoldsOn(s: Sys, e: Event, s': Sys, w: int, q: int, m: int)
    requires Steady(s) && ActiveReady(s) && Did(s, e, s') && Holds(s, w, q, m)
    ensures Holds(s', w, q, m) || ReadsOrDies(s, e, w, m)
  {
    HolderAfter(s, e, s', q, m, w);
    if e.Resumes? && w == s.active {
      ResumesHeld(s, e, s', q, m);
    }
    hide Kept, NoneDying, Movers, Vanished, Victim, Did;
  }

  lemma ResumesHeld(s: Sys, e: Event, s': Sys, q: int, m: int)
    requires Kept(s) && ActiveReady(s) && Did(s, e, s') && e.Resumes? && Holds(s, s.active, q, m)
    ensures e == Resumes(Received(m))
  {
    hide Kept;
  }
}
