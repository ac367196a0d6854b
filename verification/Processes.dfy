/** Processes, the lists they are in, and what moving one from list to list keeps. */
module Processes {
  import opened Lists

  const MAX_PRIORITY := 256
  const ALL_BUFFER_CAP := 2048
  const IDLE := 0
  const NOBODY := -1

  /** What a process finds when it continues a kernel call that had blocked. */
  datatype Resume =
    | Nothing
    | ReapChild(child: int)
    | Handed(queue: int, message: int)
    | Accepted
    | WasReset
    | ReadAgain

  /** enum process_state with its union; a dying process is in the middle of
      being killed: it is out of its list, and its old state is still stored. */
  datatype State =
    | Sched(resume: Resume)
    | WaitChild(pid: int)
    | WaitTime(clock: int)
    | WaitQueue(queue: int, message: int, sending: bool)
    | WaitCons
    | Dying(was: State)
    | Zombie(code: int)

  datatype Proc = Proc(parent: int, children: seq<int>, priority: int, state: State)

  /** struct process_queue; the messages fill a circular buffer. */
  datatype Queue = Queue(capacity: nat, messages: seq<int>, length: nat, readIndex: nat, writeIndex: nat,
      waiters: seq<int>)

  type Procs = map<int, Proc>

  /** The process kernel as a value; a process is known by its PID. The last three fields only serve the statements:
      depth is the distance to idle in the tree, sent and got are the messages that went into and came out of a queue
      since it was created or reset. */
  datatype Sys = Sys(procs: Procs, rings: seq<seq<int>>, queues: map<int, Queue>, cons: seq<int>, sleepers: seq<int>,
                     active: int, flushed: seq<char>, armed: bool,
                     depth: map<int, nat>, sent: map<int, seq<int>>, got: map<int, seq<int>>)

  /** A process that was taken out of its list to be killed. */
  function Detached(pc: Proc): Proc { pc.(state := Dying(pc.state)) }

  /** The lists a process can be in. */
  datatype Home = Ring(priority: int) | InQueue(queue: int) | OnConsole | Asleep | Nowhere

  function HomeOf(pc: Proc): Home {
    match pc.state
    case Sched(_) => Ring(pc.priority)
    case WaitQueue(q, _, _) => InQueue(q)
    case WaitCons => OnConsole
    case WaitTime(_) => Asleep
    case WaitChild(_) => Nowhere
    case Dying(_) => Nowhere
    case Zombie(_) => Nowhere
  }

  predicate HasList(s: Sys, h: Home) {
    match h
    case Ring(k) => 0 <= k < |s.rings|
    case InQueue(q) => q in s.queues
    case OnConsole => true
    case Asleep => true
    case Nowhere => false
  }

  function List(s: Sys, h: Home): seq<int>
    requires HasList(s, h)
  {
    match h
    case Ring(k) => s.rings[k]
    case InQueue(q) => s.queues[q].waiters
    case OnConsole => s.cons
    case Asleep => s.sleepers
  }

  function PutList(s: Sys, h: Home, l: seq<int>): Sys
    requires HasList(s, h)
  {
    match h
    case Ring(k) => s.(rings := s.rings[k := l])
    case InQueue(q) => s.(queues := s.queues[q := s.queues[q].(waiters := l)])
    case OnConsole => s.(cons := l)
    case Asleep => s.(sleepers := l)
  }

  lemma PutListOnly(s: Sys, h: Home, l: seq<int>, g: Home)
    requires HasList(s, h)
    ensures HasList(PutList(s, h, l), g) == HasList(s, g)
    ensures HasList(s, g) ==> List(PutList(s, h, l), g) == if g == h then l else List(s, g)
  {
  }

  ghost predicate Houses(s: Sys, h: Home)
    requires HasList(s, h)
  {
    && NoDups(List(s, h))
    && forall p :: p in List(s, h) <==> p in s.procs && HomeOf(s.procs[p]) == h
  }

  ghost predicate HasHome(s: Sys, p: int)
    requires p in s.procs
  {
    && 0 <= s.procs[p].priority < MAX_PRIORITY
    && (HomeOf(s.procs[p]) != Nowhere ==> HasList(s, HomeOf(s.procs[p])))
  }

  /** Each process is in exactly the list its state names, once. */
  ghost predicate Homed(s: Sys) {
    && |s.rings| == MAX_PRIORITY
    && (forall p {:trigger HasHome(s, p)} :: p in s.procs ==> HasHome(s, p))
    && (forall h {:trigger Houses(s, h)} :: HasList(s, h) ==> Houses(s, h))
  }

  ghost predicate CanEnter(s: Sys, pc: Proc) {
    0 <= pc.priority < MAX_PRIORITY && (HomeOf(pc) != Nowhere ==> HasList(s, HomeOf(pc)))
  }

  /** Take a process out of its list. */
  ghost function Leave(s: Sys, p: int): Sys
    requires p in s.procs && HasHome(s, p)
  {
    var h := HomeOf(s.procs[p]);
    if h == Nowhere then s else PutList(s, h, Remove(List(s, h), p))
  }

  /** Give a process a new record and put it in front of the list that names. */
  ghost function Enter(s: Sys, p: int, pc: Proc): Sys
    requires CanEnter(s, pc)
  {
    var h, s1 := HomeOf(pc), s.(procs := s.procs[p := pc]);
    if h == Nowhere then s1 else PutList(s1, h, [p] + List(s1, h))
  }

  lemma LeaveLists(s: Sys, p: int, g: Home)
    requires p in s.procs && HasHome(s, p)
    ensures HasList(Leave(s, p), g) == HasList(s, g)
    ensures HasList(s, g) ==> List(Leave(s, p), g) == if g == HomeOf(s.procs[p]) then Remove(List(s, g), p)
        else List(s, g)
    ensures Leave(s, p).procs == s.procs && |Leave(s, p).rings| == |s.rings|
  {
    var h := HomeOf(s.procs[p]);
    if h != Nowhere {
      PutListOnly(s, h, Remove(List(s, h), p), g);
    }
  }

  lemma EnterLists(s: Sys, p: int, pc: Proc, g: Home)
    requires CanEnter(s, pc)
    ensures HasList(Enter(s, p, pc), g) == HasList(s, g)
    ensures HasList(s, g) ==> List(Enter(s, p, pc), g) == if g == HomeOf(pc) then [p] + List(s, g) else List(s, g)
    ensures Enter(s, p, pc).procs == s.procs[p := pc] && |Enter(s, p, pc).rings| == |s.rings|
  {
    var h, s1 := HomeOf(pc), s.(procs := s.procs[p := pc]);
    if h != Nowhere {
      PutListOnly(s1, h, [p] + List(s1, h), g);
    }
  }

  ghost function Move(s: Sys, p: int, pc: Proc): Sys
    requires p in s.procs && HasHome(s, p) && CanEnter(s, pc)
  {
    LeaveLists(s, p, HomeOf(pc));
    Enter(Leave(s, p), p, pc)
  }

  lemma MoveLists(s: Sys, p: int, pc: Proc, g: Home)
    requires p in s.procs && HasHome(s, p) && CanEnter(s, pc)
    ensures var s', was, goes := Move(s, p, pc), HomeOf(s.procs[p]), HomeOf(pc);
            && HasList(s', g) == HasList(s, g) && s'.procs == s.procs[p := pc] && |s'.rings| == |s.rings|
            && (HasList(s, g) ==> var l := if g == was then Remove(List(s, g), p) else List(s, g);
                                  List(s', g) == if g == goes then [p] + l else l)
  {
    hide Leave, Enter;
    LeaveLists(s, p, g);
    LeaveLists(s, p, HomeOf(pc));
    EnterLists(Leave(s, p), p, pc, g);
  }

  /** Moving a process keeps every process in the list of its state. */
  lemma MoveHomed(s: Sys, p: int, pc: Proc)
    requires Homed(s) && p in s.procs && HasHome(s, p) && CanEnter(s, pc)
    ensures Homed(Move(s, p, pc))
  {
    hide Move;
    var s' := Move(s, p, pc);
    MoveLists(s, p, pc, Nowhere);
    forall q | q in s'.procs
      ensures HasHome(s', q)
    {
      assert q != p ==> HasHome(s, q);
      MoveLists(s, p, pc, HomeOf(s'.procs[q]));
    }
    forall h | HasList(s', h)
      ensures Houses(s', h)
    {
      MoveLists(s, p, pc, h);
      assert Houses(s, h);
      RemoveMembers(List(s, h), p);
    }
  }

  /** A new process enters the list of its state. */
  lemma EnterHomed(s: Sys, p: int, pc: Proc)
    requires Homed(s) && p !in s.procs && CanEnter(s, pc)
    ensures Homed(Enter(s, p, pc))
  {
    hide Enter;
    var s' := Enter(s, p, pc);
    EnterLists(s, p, pc, Nowhere);
    forall q | q in s'.procs
      ensures HasHome(s', q)
    {
      assert q != p ==> HasHome(s, q);
      EnterLists(s, p, pc, HomeOf(s'.procs[q]));
    }
    forall h | HasList(s', h)
      ensures Houses(s', h)
    {
      EnterLists(s, p, pc, h);
      assert Houses(s, h);
    }
  }
}
