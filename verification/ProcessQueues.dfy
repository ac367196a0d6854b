/** Message queues, console readers and sleepers in the whole system: handing over, waking, resetting. */
module ProcessQueues {
  import opened Lists
  import opened Processes
  import opened ProcessTree
  import opened MessageQueues
  import opened ProcessState
  import opened ProcessSteps

  /** The process of the list that is woken first: the highest priority, and the one that waits longest among equals. */
  ghost predicate LastOfHighest(ps: Procs, l: seq<int>, w: int) {
    exists i :: 0 <= i < |l| && IsLastHighest(ps, l, i) && w == l[i]
  }

  ghost predicate IsLastHighest(ps: Procs, l: seq<int>, i: int)
    requires 0 <= i < |l|
  {
    && (forall x :: x in l ==> x in ps)
    && (forall j :: 0 <= j < |l| ==> ps[l[j]].priority <= ps[l[i]].priority)
    && (forall j :: i < j < |l| ==> ps[l[j]].priority < ps[l[i]].priority)
  }

  /** The first process of highest priority in a list, NOBODY when the list is empty. */
  ghost predicate TopOf(ps: Procs, l: seq<int>, top: int) {
    if l == [] then top == NOBODY
    else
      && top in l && (forall p :: p in l ==> p in ps && top in ps && ps[p].priority <= ps[top].priority)
      && AheadLower(ps, l, top)
  }

  /** The processes in front of top have lower priorities. */
  ghost predicate AheadLower(ps: Procs, l: seq<int>, top: int)
    requires top in ps
  {
    exists i :: 0 <= i < |l| && l[i] == top && forall j :: 0 <= j < i ==>
        l[j] in ps && ps[l[j]].priority < ps[top].priority
  }

  /** One more process at the end of the list. */
  lemma TopNext(ps: Procs, l: seq<int>, p: int, top: int)
    requires TopOf(ps, l, top) && p in ps && NOBODY !in ps
    ensures top != NOBODY ==> top in ps
    ensures TopOf(ps, l + [p], if top == NOBODY || ps[top].priority < ps[p].priority then p else top)
  {
    var m := l + [p];
    if l == [] {
      assert m == [p];
      assert AheadLower(ps, m, p);
    } else if ps[top].priority < ps[p].priority {
      assert m[|l|] == p && forall j :: 0 <= j < |l| ==> m[j] in l && m[j] in m;
      assert AheadLower(ps, m, p);
    } else {
      var k :| 0 <= k < |l| && l[k] == top && forall j :: 0 <= j < k ==>
          l[j] in ps && ps[l[j]].priority < ps[top].priority;
      assert m[k] == top && forall j :: 0 <= j < k ==> m[j] == l[j] && m[j] in m;
      assert AheadLower(ps, m, top);
    }
  }

  lemma Waiting(s: Sys, h: Home)
    requires Homed(s) && HasList(s, h) && !h.Ring?
    ensures NoDups(List(s, h))
    ensures forall p :: p in List(s, h) ==> p in s.procs && HasHome(s, p) && HomeOf(s.procs[p]) == h
    ensures forall p :: p in List(s, h) ==>
        !s.procs[p].state.Sched? && !s.procs[p].state.Zombie? && !s.procs[p].state.Dying?
  {
    assert Houses(s, h);
    forall p | p in List(s, h)
      ensures HasHome(s, p)
    {
    }
  }

  /** Waking the head of a wait list is taking it off and inserting it in its ring. */
  lemma WakeHead(s: Sys, h: Home, r: Resume)
    requires Kept(s) && HasList(s, h) && !h.Ring? && List(s, h) != [] && !r.ReapChild?
    ensures var l := List(s, h); var p, t := l[0], PutList(s, h, l[1..]);
            && p in s.procs && CanEnter(t, Woken(s.procs[p], r)) && Wake(s, p, r) == Enter(t, p, Woken(s.procs[p], r))
            && t.procs == s.procs && Kept(Wake(s, p, r)) && HasList(Wake(s, p, r), h)
            && List(Wake(s, p, r), h) == l[1..]
            && OnlyWoken(s, Wake(s, p, r), [p], r)
  {
    Waiting(s, h);
    var l := List(s, h);
    var p := l[0];
    assert p in l;
    WakeKept(s, p, r, MAX_PRIORITY);
    assert Remove(l, p) == l[1..];
    MoveLists(s, p, Woken(s.procs[p], r), h);
  }

  /** Logs and buffers do not matter to the scheduler. */
  lemma SoundLike(s: Sys, s': Sys)
    requires Sound(s) && Kept(s') && s'.procs == s.procs && s'.rings == s.rings && s'.active == s.active
    ensures Sound(s')
  {
  }

  // ----- reset and delete -----

  /** The waiters were woken with an error, the queue was changed, and the most urgent waiter runs if it outranks the
      active process. */
  ghost predicate WasResetTo(s: Sys, q: int, t: Sys, s': Sys)
    requires q in s.queues
  {
    exists top :: TopOf(s.procs, s.queues[q].waiters, top) && s' == Urgent(t, top)
  }

  /** All waiters are woken with an error, and the queue is empty. */
  ghost function Reset(s: Sys, q: int): Sys
    requires q in s.queues
  {
    var t := WakeEach(s, s.queues[q].waiters, WasReset);
    if q in t.queues then SetQueue(t, q, EmptyQueue(t.queues[q]), [], []) else t
  }

  ghost function Deleted(s: Sys, q: int): Sys
    requires q in s.queues
  {
    var t := WakeEach(s, s.queues[q].waiters, WasReset);
    t.(queues := t.queues - {q})
  }

  lemma WaitersGone(s: Sys, q: int)
    requires Kept(s) && q in s.queues
    ensures var t := WakeEach(s, s.queues[q].waiters, WasReset);
            && Kept(t) && q in t.queues && t.queues[q] == s.queues[q].(waiters := [])
            && OnlyWoken(s, t, s.queues[q].waiters, WasReset)
            && QueueOk(t.queues[q]) && QueueOk(s.queues[q])
            && t.queues.Keys == s.queues.Keys && t.procs.Keys == s.procs.Keys && t.active == s.active
  {
    var l := s.queues[q].waiters;
    Waiting(s, InQueue(q));
    forall p | p in l
      ensures p in s.procs && s.procs[p].priority <= MAX_PRIORITY
    {
      assert HasHome(s, p);
    }
    WakeEachKept(s, l, WasReset, MAX_PRIORITY);
    var t := WakeEach(s, l, WasReset);
    assert Houses(t, InQueue(q)) && Houses(s, InQueue(q)) && QueueSound(s, q) && QueueSound(t, q);
    NoneLeft(s, t, q);
  }

  lemma NoneLeft(s: Sys, t: Sys, q: int)
    requires q in s.queues && q in t.queues && Houses(t, InQueue(q)) && Houses(s, InQueue(q))
    requires OnlyWoken(s, t, s.queues[q].waiters, WasReset)
    ensures t.queues[q] == s.queues[q].(waiters := [])
  {
    var l := t.queues[q].waiters;
    assert l == List(t, InQueue(q)) && s.queues[q].waiters == List(s, InQueue(q));
    forall p
      ensures p !in l
    {
      assert p in t.procs ==> p in s.procs;
    }
    NoMembers(l);
  }

  lemma ResetSound(s: Sys, q: int, top: int)
    requires Sound(s) && q in s.queues && TopOf(s.procs, s.queues[q].waiters, top)
    ensures Sound(Urgent(Reset(s, q), top)) && Sound(Urgent(Deleted(s, q), top))
  {
    hide Homed, Tree, Queued, SleepSorted, Settled, Ready, WakeEach, OnlyWoken, QueueOk;
    var l := s.queues[q].waiters;
    Waiting(s, InQueue(q));
    WaitersGone(s, q);
    WokenSound(s, l, WasReset, top);
    var u := Urgent(WakeEach(s, l, WasReset), top);
    EmptiedSound(u, q);
    assert Urgent(Reset(s, q), top) == SetQueue(u, q, EmptyQueue(u.queues[q]), [], []);
    assert Urgent(Deleted(s, q), top) == u.(queues := u.queues - {q});
  }

  /** A queue that nobody waits for can be emptied or removed. */
  lemma EmptiedSound(u: Sys, q: int)
    requires Sound(u) && q in u.queues && u.queues[q].waiters == [] && QueueOk(u.queues[q])
    ensures Sound(SetQueue(u, q, EmptyQueue(u.queues[q]), [], [])) && Sound(u.(queues := u.queues - {q}))
  {
    SetQueueKept(u, q, EmptyQueue(u.queues[q]), [], []);
    DropQueueKept(u, q);
    hide Kept;
    SoundLike(u, SetQueue(u, q, EmptyQueue(u.queues[q]), [], []));
    SoundLike(u, u.(queues := u.queues - {q}));
  }

  // ----- send and receive -----

  ghost function Log(s: Sys, q: int, a: seq<int>, b: seq<int>): Sys
    requires q in s.sent && q in s.got
  {
    s.(sent := s.sent[q := s.sent[q] + a], got := s.got[q := s.got[q] + b])
  }

  /** A message is handed to a waiting receiver. */
  ghost function HandedTo(s: Sys, q: int, w: int, message: int): Sys
    requires q in s.sent && q in s.got
  {
    var t := Wake(s, w, Handed(q, message));
    if q in t.sent && q in t.got then Log(t, q, [message], [message]) else t
  }

  lemma HandedKept(s: Sys, q: int, w: int, message: int)
    requires Kept(s) && q in s.queues && s.queues[q].length == 0 && w in s.queues[q].waiters
    ensures q in s.sent && q in s.got && Kept(HandedTo(s, q, w, message))
    ensures w in s.procs && OnlyWoken(s, Wake(s, w, Handed(q, message)), [w], Handed(q, message))
  {
    Waiting(s, InQueue(q));
    assert QueueSound(s, q);
    WakeKept(s, w, Handed(q, message), MAX_PRIORITY);
    LogKept(Wake(s, w, Handed(q, message)), q, message);
  }

  lemma HandedSound(s: Sys, q: int, w: int, message: int)
    requires Sound(s) && q in s.queues && s.queues[q].length == 0 && w in s.queues[q].waiters
    ensures q in s.sent && q in s.got && Sound(Urgent(HandedTo(s, q, w, message), w))
    ensures Kept(HandedTo(s, q, w, message))
  {
    Waiting(s, InQueue(q));
    HandedKept(s, q, w, message);
    hide Homed, Tree, SleepSorted, Settled, NoneAbove;
    OneWoken(s, w, Handed(q, message));
    WokenSound(s, [w], Handed(q, message), w);
    var u := Urgent(Wake(s, w, Handed(q, message)), w);
    LogKept(u, q, message);
    assert Urgent(HandedTo(s, q, w, message), w) == Log(u, q, [message], [message]);
    SoundLike(u, Log(u, q, [message], [message]));
  }

  lemma OneWoken(s: Sys, w: int, r: Resume)
    ensures WakeEach(s, [w], r) == Wake(s, w, r)
  {
    assert [w][1..] == [];
  }

  lemma LogKept(t: Sys, q: int, message: int)
    requires Kept(t) && q in t.queues && t.queues[q].length == 0
    ensures q in t.sent && q in t.got && Kept(Log(t, q, [message], [message]))
  {
    assert QueueSound(t, q);
    assert Contents(t.queues[q]) == [];
    assert t.queues[q := t.queues[q]] == t.queues;
    SetQueueKept(t, q, t.queues[q], t.sent[q] + [message], t.got[q] + [message]);
  }

  /** A message goes into the buffer. */
  ghost function Written(s: Sys, q: int, message: int): Sys
    requires q in s.queues && q in s.sent && q in s.got && s.queues[q].writeIndex < |s.queues[q].messages|
  {
    SetQueue(s, q, RawWrite(s.queues[q], message), s.sent[q] + [message], s.got[q])
  }

  lemma WrittenKept(s: Sys, q: int, message: int)
    requires Kept(s) && q in s.queues && s.queues[q].length < s.queues[q].capacity
    requires s.queues[q].length == 0 ==> s.queues[q].waiters == []
    ensures q in s.sent && q in s.got && s.queues[q].writeIndex < |s.queues[q].messages| && Kept(Written(s, q, message))
  {
    assert QueueSound(s, q);
    NoWaiters(s, q);
    WriteAppends(s.queues[q], message);
    SetQueueKept(s, q, RawWrite(s.queues[q], message), s.sent[q] + [message], s.got[q]);
  }

  lemma WrittenSound(s: Sys, q: int, message: int)
    requires Sound(s) && q in s.queues && s.queues[q].length < s.queues[q].capacity
    requires s.queues[q].length == 0 ==> s.queues[q].waiters == []
    ensures q in s.sent && q in s.got && s.queues[q].writeIndex < |s.queues[q].messages|
    ensures Sound(Written(s, q, message))
  {
    WrittenKept(s, q, message);
    SoundLike(s, Written(s, q, message));
  }

  /** Nobody waits at a queue that is neither full nor empty. */
  lemma NoWaiters(s: Sys, q: int)
    requires q in s.queues && QueueSound(s, q)
    ensures 0 < s.queues[q].length < s.queues[q].capacity ==> s.queues[q].waiters == []
  {
    var l := s.queues[q].waiters;
    if 0 < s.queues[q].length < s.queues[q].capacity {
      forall p
        ensures p !in l
      {
        assert p in l ==> WaitsRightly(s, q, p);
      }
      NoMembers(l);
    }
  }

  /** The oldest message leaves the buffer. */
  ghost function Read(s: Sys, q: int): Sys
    requires q in s.queues && q in s.sent && q in s.got && s.queues[q].length > 0
    requires s.queues[q].readIndex < |s.queues[q].messages|
  {
    SetQueue(s, q, RawRead(s.queues[q]), s.sent[q], s.got[q] + [s.queues[q].messages[s.queues[q].readIndex]])
  }

  lemma ReadKept(s: Sys, q: int)
    requires Kept(s) && q in s.queues && s.queues[q].length > 0 && s.queues[q].waiters == []
    ensures q in s.sent && q in s.got && s.queues[q].readIndex < |s.queues[q].messages| && Kept(Read(s, q))
  {
    assert QueueSound(s, q);
    ReadTakesFirst(s.queues[q]);
    SetQueueKept(s, q, RawRead(s.queues[q]), s.sent[q], s.got[q] + [s.queues[q].messages[s.queues[q].readIndex]]);
  }

  lemma ReadSound(s: Sys, q: int)
    requires Sound(s) && q in s.queues && s.queues[q].length > 0 && s.queues[q].waiters == []
    ensures q in s.sent && q in s.got && s.queues[q].readIndex < |s.queues[q].messages| && Sound(Read(s, q))
  {
    ReadKept(s, q);
    SoundLike(s, Read(s, q));
  }

  /** The oldest message leaves a full buffer, and that of a waiting sender enters. */
  ghost function Refilled(s: Sys, q: int, w: int): Sys
    requires q in s.queues && q in s.sent && q in s.got && s.queues[q].length > 0
    requires s.queues[q].readIndex < |s.queues[q].messages|
    requires s.queues[q].writeIndex < |s.queues[q].messages| && w in s.procs && s.procs[w].state.WaitQueue?
  {
    var qu, message := s.queues[q], s.procs[w].state.message;
    SetQueue(s, q, RawWrite(RawRead(qu), message), s.sent[q] + [message], s.got[q] + [qu.messages[qu.readIndex]])
  }

  lemma RefilledKept(s: Sys, q: int, w: int)
    requires Kept(s) && q in s.queues && s.queues[q].length == s.queues[q].capacity && w in s.queues[q].waiters
    ensures q in s.sent && q in s.got && s.queues[q].readIndex < |s.queues[q].messages| && s.queues[q].length > 0
    ensures s.queues[q].writeIndex < |s.queues[q].messages| && w in s.procs && s.procs[w].state.WaitQueue?
    ensures Kept(Refilled(s, q, w)) && Kept(Wake(Refilled(s, q, w), w, Accepted))
    ensures OnlyWoken(Refilled(s, q, w), Wake(Refilled(s, q, w), w, Accepted), [w], Accepted)
  {
    Waiting(s, InQueue(q));
    assert QueueSound(s, q) && WaitsRightly(s, q, w);
    var qu, message := s.queues[q], s.procs[w].state.message;
    ReadTakesFirst(qu);
    WriteAppends(RawRead(qu), message);
    var first := qu.messages[qu.readIndex];
    assert s.sent[q] + [message] == s.got[q] + [first] + Contents(RawWrite(RawRead(qu), message)) by {
      assert s.sent[q] == s.got[q] + ([first] + Contents(RawRead(qu)));
    }
    SetQueueKept(s, q, RawWrite(RawRead(qu), message), s.sent[q] + [message], s.got[q] + [first]);
    hide Kept;
    WakeKept(Refilled(s, q, w), w, Accepted, MAX_PRIORITY);
  }

  lemma RefilledSound(s: Sys, q: int, w: int)
    requires Sound(s) && q in s.queues && s.queues[q].length == s.queues[q].capacity && w in s.queues[q].waiters
    ensures q in s.sent && q in s.got && s.queues[q].readIndex < |s.queues[q].messages| && s.queues[q].length > 0
    ensures s.queues[q].writeIndex < |s.queues[q].messages| && w in s.procs && s.procs[w].state.WaitQueue?
    ensures Sound(Refilled(s, q, w)) && Kept(Wake(Refilled(s, q, w), w, Accepted))
    ensures Sound(Urgent(Wake(Refilled(s, q, w), w, Accepted), w))
  {
    RefilledKept(s, q, w);
    var t := Refilled(s, q, w);
    SoundLike(s, t);
    hide Kept;
    OneWoken(t, w, Accepted);
    WokenSound(t, [w], Accepted, w);
  }

  // ----- sleepers -----

  /** The sleepers whose time has come: a prefix of the list. */
  function Due(ps: Procs, l: seq<int>, clock: int): (d: seq<int>)
    ensures d <= l
  {
    if l != [] && l[0] in ps && ps[l[0]].state.WaitTime? && ps[l[0]].state.clock <= clock
    then [l[0]] + Due(ps, l[1..], clock) else []
  }

  /** All sleepers whose time has come are woken, because the list is ordered. */
  lemma {:induction false} DueIsAll(ps: Procs, l: seq<int>, clock: int)
    requires SleepSorted(ps, l)
    ensures forall p :: p in Due(ps, l, clock) <==> p in l && ps[p].state.clock <= clock
  {
    if l != [] {
      var first := l[0];
      assert l == [first] + l[1..] && first in l;
      DueIsAll(ps, l[1..], clock);
    }
  }

  lemma SoundKept(s: Sys)
    requires Sound(s)
    ensures Kept(s) && s.active in s.procs
  {
  }

  lemma TopIn(s: Sys, q: int, top: int)
    requires Kept(s) && q in s.queues && TopOf(s.procs, s.queues[q].waiters, top)
    ensures top != NOBODY ==> top in s.procs
  {
  }

  lemma ResetKept(s: Sys, q: int)
    requires Kept(s) && q in s.queues
    ensures Kept(Reset(s, q)) && Kept(Deleted(s, q))
    ensures Reset(s, q).procs.Keys == s.procs.Keys == Deleted(s, q).procs.Keys
    ensures Reset(s, q).active == s.active == Deleted(s, q).active
    ensures Reset(s, q).queues.Keys == s.queues.Keys && Deleted(s, q).queues.Keys == s.queues.Keys - {q}
  {
    WaitersGone(s, q);
    var t := WakeEach(s, s.queues[q].waiters, WasReset);
    SetQueueKept(t, q, EmptyQueue(t.queues[q]), [], []);
    DropQueueKept(t, q);
  }

  lemma ResetIs(s: Sys, q: int, t: Sys, s': Sys, top: int)
    requires q in s.queues && TopOf(s.procs, s.queues[q].waiters, top) && s' == Urgent(t, top)
    ensures WasResetTo(s, q, t, s')
  {
  }

  lemma {:induction false} DuePrefix(ps: Procs, l: seq<int>, clock: int)
    requires SleepSorted(ps, l)
    ensures var d := Due(ps, l, clock);
            && |d| <= |l| && d == l[..|d|]
            && (forall j :: 0 <= j < |d| ==> l[j] in ps && ps[l[j]].state.WaitTime? && ps[l[j]].state.clock <= clock)
            && (|d| < |l| ==> l[|d|] in ps && ps[l[|d|]].state.WaitTime? && ps[l[|d|]].state.clock > clock)
  {
    if l != [] {
      var first := l[0];
      assert first in l;
      DuePrefix(ps, l[1..], clock);
    }
  }

  ghost function TimeCame(s: Sys, clock: int): Sys { WakeEach(s, Due(s.procs, s.sleepers, clock), Nothing) }

  /** Waking all sleepers whose time has come, and running the most urgent one if it outranks the active process. */
  lemma TimeSound(s: Sys, clock: int, top: int)
    requires Sound(s) && TopOf(s.procs, Due(s.procs, s.sleepers, clock), top)
    ensures Sound(Urgent(TimeCame(s, clock), top))
  {
    Waiting(s, Asleep);
    DuePrefix(s.procs, s.sleepers, clock);
    var l := Due(s.procs, s.sleepers, clock);
    assert forall j :: 0 <= j < |l| ==> l[j] == s.sleepers[j];
    WokenSound(s, l, Nothing, top);
  }

  /** A line was flushed: the readers are awake and the console is disarmed. */
  ghost function LineFlushed(s: Sys, text: seq<char>): Sys {
    WakeEach(s, s.cons, ReadAgain).(flushed := s.flushed + text, armed := false)
  }

  lemma ReadersGone(s: Sys)
    requires Kept(s)
    ensures var t := WakeEach(s, s.cons, ReadAgain);
            && Kept(t) && t.cons == [] && OnlyWoken(s, t, s.cons, ReadAgain) && t.procs.Keys == s.procs.Keys
            && t.active == s.active
  {
    Waiting(s, OnConsole);
    forall p | p in s.cons
      ensures p in s.procs && s.procs[p].priority <= MAX_PRIORITY
    {
      assert HasHome(s, p);
    }
    WakeEachKept(s, s.cons, ReadAgain, MAX_PRIORITY);
    var t := WakeEach(s, s.cons, ReadAgain);
    assert Houses(t, OnConsole) && Houses(s, OnConsole);
    forall p
      ensures p !in t.cons
    {
      assert p in t.procs ==> p in s.procs;
      assert p in s.cons <==> p in List(s, OnConsole);
      assert p in t.cons <==> p in List(t, OnConsole);
    }
    NoMembers(t.cons);
  }

  lemma FlushSound(s: Sys, text: seq<char>, top: int)
    requires Sound(s) && TopOf(s.procs, s.cons, top) && |s.flushed| + |text| <= ALL_BUFFER_CAP
    ensures Sound(Urgent(LineFlushed(s, text), top)) && Kept(LineFlushed(s, text)) && LineFlushed(s, text).cons == []
  {
    hide Homed, Tree, Queued, SleepSorted, Settled, NoneAbove, WakeEach;
    Waiting(s, OnConsole);
    ReadersGone(s);
    WokenSound(s, s.cons, ReadAgain, top);
    var t := WakeEach(s, s.cons, ReadAgain);
    var u := Urgent(t, top);
    SetConsoleKept(u, s.flushed + text, false);
    SetConsoleKept(t, s.flushed + text, false);
    assert Urgent(LineFlushed(s, text), top) == u.(flushed := s.flushed + text, armed := false);
    SoundLike(u, Urgent(LineFlushed(s, text), top));
  }
}
