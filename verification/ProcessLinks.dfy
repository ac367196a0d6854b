/** The rings and wait lists as they are linked through the process structures. */
module ProcessLinks {
  import opened Lists
  import opened Processes
  import opened ProcessState
  import opened ProcessQueues

  /** The link fields of struct process, of its place in a ring or in a wait list. */
  class Node {
    const pid: int
    const priority: int
    var prev: Node?
    var next: Node?
    constructor (pid: int, priority: int)
      ensures this.pid == pid && this.priority == priority && prev == null && next == null
    {
      this.pid, this.priority := pid, priority;
      prev, next := null, null;
    }
  }

  /** The list of process numbers that a linked list stands for in the model of the whole kernel. */
  function Pids(l: seq<Node>): (r: seq<int>)
    ensures |r| == |l| && forall i :: 0 <= i < |l| ==> r[i] == l[i].pid
  {
    if l == [] then [] else [l[0].pid] + Pids(l[1..])
  }

  /** The records give the processes the priorities that are in the nodes. */
  ghost predicate RanksOf(ps: Procs, l: seq<Node>) {
    forall i :: 0 <= i < |l| ==> l[i].pid in ps && ps[l[i].pid].priority == l[i].priority
  }

  lemma LastIsHighest(l: seq<Node>, k: nat)
    requires k < |l| && (forall j :: 0 <= j < |l| ==> l[j].priority <= l[k].priority)
    requires forall j :: k < j < |l| ==> l[j].priority < l[k].priority
    ensures forall ps: Procs :: RanksOf(ps, l) ==> LastOfHighest(ps, Pids(l), l[k].pid)
  {
    forall ps: Procs | RanksOf(ps, l)
      ensures LastOfHighest(ps, Pids(l), l[k].pid)
    {
      assert IsLastHighest(ps, Pids(l), k);
    }
  }

  /** No process is in the list twice. */
  ghost predicate Distinct(l: seq<Node>) { NoDups(Pids(l)) }

  lemma {:induction false} PidsJoin(a: seq<Node>, b: seq<Node>)
    ensures Pids(a + b) == Pids(a) + Pids(b)
  {
    if a == [] {
      assert a + b == b;
    } else {
      assert (a + b)[1..] == a[1..] + b;
      PidsJoin(a[1..], b);
    }
  }

  lemma PidsAround(l: seq<Node>, k: nat)
    requires k < |l|
    ensures Pids(l[..k] + l[k + 1..]) == Pids(l)[..k] + Pids(l)[k + 1..] && Pids(l)[k] == l[k].pid
  {
    PidsJoin(l[..k], l[k + 1..]);
    PidsJoin(l[..k], l[k..]);
    assert l == l[..k] + l[k..] && l[k..][1..] == l[k + 1..];
  }

  /** Cutting a node out of the links is taking its number out of the list. */
  lemma PidsCut(l: seq<Node>, k: nat)
    requires Distinct(l) && k < |l|
    ensures Pids(l[..k] + l[k + 1..]) == Remove(Pids(l), l[k].pid) && Distinct(l[..k] + l[k + 1..])
    ensures l[k].pid in Pids(l) && NextOf(Pids(l), l[k].pid) == if |l| == 1 then NOBODY else l[Succ(k, |l|)].pid
  {
    PidsAround(l, k);
    hide NextOf;
    SameAsLists(Pids(l), k);
    RemoveMembers(Pids(l), l[k].pid);
  }

  /** A process whose number is not in the list is not in the list. */
  lemma Absent(l: seq<Node>, p: Node)
    requires p in l || p.pid !in Pids(l)
    ensures p !in l ==> Remove(Pids(l), p.pid) == Pids(l)
  {
  }

  lemma PidsPush(l: seq<Node>, p: Node)
    requires Distinct(l) && p.pid !in Pids(l)
    ensures Distinct([p] + l) && Pids([p] + l) == [p.pid] + Pids(l) && p !in l
  {
    assert ([p] + l)[1..] == l;
    forall i | 0 <= i < |l|
      ensures l[i] != p
    {
      assert Pids(l)[i] == l[i].pid;
    }
  }

  function Succ(i: nat, n: nat): nat { if i + 1 >= n then 0 else i + 1 }

  function Pred(i: nat, n: nat): nat { if i == 0 && n > 0 then n - 1 else if i == 0 then 0 else i - 1 }

  /** One of process_sched_rings: a circular list, known by its first process. */
  class SchedRing {
    var first: Node?
    ghost var list: seq<Node>

    ghost predicate LinkedAt(i: nat)
      requires i < |list|
      reads this, list
    {
      list[i].next == list[Succ(i, |list|)] && list[i].prev == list[Pred(i, |list|)]
    }

    ghost predicate Valid()
      reads this, list
    {
      Linked() && Distinct(list)
    }

    ghost predicate Linked()
      reads this, list
    {
      && NoDups(list) && first == (if list == [] then null else list[0])
      && forall i {:trigger LinkedAt(i)} :: 0 <= i < |list| ==> LinkedAt(i)
    }

    constructor ()
      ensures Valid() && list == []
    {
      first, list := null, [];
    }

    /** process_sched_ring_insert: in front of the first process, which it replaces. */
    method Insert(process: Node)
      requires Valid() && process.pid !in Pids(list)
      modifies this, process, list
      ensures Valid() && list == [process] + old(list) && Pids(list) == [process.pid] + Pids(old(list))
    {
      hide Pids, Distinct;
      PidsPush(list, process);
      if first != null {
        var firstProcess: Node := first;
        ghost var n := |list|;
        assert LinkedAt(0) && LinkedAt(n - 1);
        process.next := firstProcess;
        process.prev := firstProcess.prev;
        firstProcess.prev := process;
        process.prev.next := process;
      } else {
        process.next := process;
        process.prev := process;
      }
      first := process;
      list := [process] + list;
      forall i | 0 <= i < |list|
        ensures LinkedAt(i)
      {
        if 0 < i {
          assert old(LinkedAt(i - 1));
        }
      }
    }

    /** process_sched_ring_remove: the process that follows in the ring, NULL when there is none. A process that has
        left its ring already, and so has no links, changes nothing. */
    method Remove(process: Node, ghost k: nat) returns (nextProcess: Node?)
      requires Valid()
      requires if process in list then k < |list| && list[k] == process
          else process.prev == null || process.next == null
      modifies this, list
      ensures Valid() && (process !in old(list) ==> nextProcess == null && list == old(list))
      ensures process in old(list) ==>
        && list == old(list)[..k] + old(list)[k + 1..]
        && Pids(list) == Lists.Remove(Pids(old(list)), process.pid)
        && (if nextProcess == null then NOBODY else nextProcess.pid) == NextOf(Pids(old(list)), process.pid)
        && process.prev == null && process.next == null
    {
      hide Pids, Distinct, Lists.Remove, NextOf, NoDups;
      if process in list {
        assert LinkedAt(k);
        PidsCut(list, k);
      }
      if process.prev == null || process.next == null {
        return null;
      }
      nextProcess := CutOut(process, k);
    }

    method CutOut(process: Node, ghost k: nat) returns (nextProcess: Node?)
      requires Linked() && k < |list| && list[k] == process
      modifies this, list
      ensures Linked() && list == old(list)[..k] + old(list)[k + 1..]
      ensures nextProcess == if |old(list)| == 1 then null else old(list)[Succ(k, |old(list)|)]
      ensures process.prev == null && process.next == null
    {
      ghost var l, n := list, |list|;
      ghost var r := CutList(l, k);
      nextProcess := Unlink(process, k);
      if first == process {
        first := nextProcess;
      }
      list := r;
      forall i | 0 <= i < n - 1
        ensures LinkedAt(i)
      {
        CutIndex(i, k, n);
        assert r[i] == l[if i < k then i else i + 1];
      }
    }

    /** The neighbours of a process are linked to each other, around it. */
    method Unlink(process: Node, ghost k: nat) returns (nextProcess: Node?)
      requires Linked() && k < |list| && list[k] == process
      modifies list
      ensures nextProcess == if |list| == 1 then null else list[Succ(k, |list|)]
      ensures process.prev == null && process.next == null
      ensures forall j :: 0 <= j < |list| && j != k ==>
          list[j].next == list[if j == Pred(k, |list|) then Succ(k, |list|) else Succ(j, |list|)]
      ensures forall j :: 0 <= j < |list| && j != k ==>
          list[j].prev == list[if j == Succ(k, |list|) then Pred(k, |list|) else Pred(j, |list|)]
    {
      ghost var n := |list|;
      assert LinkedAt(k);
      var prevProcess: Node := process.prev;
      nextProcess := process.next;
      if nextProcess == process {
        assert n == 1;
        nextProcess := null;
      } else {
        prevProcess.next := nextProcess;
        nextProcess.prev := prevProcess;
      }
      process.prev := null;
      process.next := null;
      forall j | 0 <= j < n && j != k
        ensures list[j].next == list[if j == Pred(k, n) then Succ(k, n) else Succ(j, n)]
        ensures list[j].prev == list[if j == Succ(k, n) then Pred(k, n) else Pred(j, n)]
      {
        assert old(LinkedAt(j));
      }
    }
  }

  lemma CutList(l: seq<Node>, k: nat) returns (r: seq<Node>)
    requires NoDups(l) && k < |l|
    ensures r == l[..k] + l[k + 1..] && |r| == |l| - 1 && NoDups(r)
    ensures forall i :: 0 <= i < |r| ==> r[i] == l[if i < k then i else i + 1]
  {
    r := l[..k] + l[k + 1..];
  }

  /** How the neighbours in a ring of n without position k are found in the ring of n. */
  lemma CutIndex(i: nat, k: nat, n: nat)
    requires k < n && i < n - 1
    ensures var j, s, p := if i < k then i else i + 1, Succ(i, n - 1), Pred(i, n - 1);
            && (if s < k then s else s + 1) == (if j == Pred(k, n) then Succ(k, n) else Succ(j, n))
            && (if p < k then p else p + 1) == (if j == Succ(k, n) then Pred(k, n) else Pred(j, n))
  {
  }

  /** The wait list of a queue: doubly linked, ended by NULL on both sides. */
  class WaitList {
    var head: Node?
    ghost var list: seq<Node>

    ghost predicate LinkedAt(i: nat)
      requires i < |list|
      reads this, list
    {
      && list[i].next == (if i + 1 < |list| then list[i + 1] else null)
      && list[i].prev == (if i > 0 then list[i - 1] else null)
    }

    ghost predicate Valid()
      reads this, list
    {
      && NoDups(list) && Distinct(list) && head == (if list == [] then null else list[0])
      && forall i {:trigger LinkedAt(i)} :: 0 <= i < |list| ==> LinkedAt(i)
    }

    constructor ()
      ensures Valid() && list == []
    {
      head, list := null, [];
    }

    /** process_queue_add_process. */
    method Add(process: Node)
      requires Valid() && process.pid !in Pids(list)
      modifies this, process, list
      ensures Valid() && list == [process] + old(list) && Pids(list) == [process.pid] + Pids(old(list))
    {
      hide Pids, Distinct;
      PidsPush(list, process);
      process.prev := null;
      process.next := head;
      if head != null {
        assert LinkedAt(0);
        head.prev := process;
      }
      head := process;
      list := [process] + list;
      forall i | 0 <= i < |list|
        ensures LinkedAt(i)
      {
        if 0 < i {
          assert old(LinkedAt(i - 1));
        }
      }
    }

    /** process_queue_remove_process. */
    method Remove(process: Node, ghost k: nat)
      requires Valid() && k < |list| && list[k] == process
      modifies this, list
      ensures Valid() && list == old(list)[..k] + old(list)[k + 1..]
      ensures Pids(list) == Lists.Remove(Pids(old(list)), process.pid)
    {
      hide Pids, Distinct, Lists.Remove, NextOf;
      PidsCut(list, k);
      ghost var l := list;
      assert LinkedAt(k) && (k > 0 ==> LinkedAt(k - 1)) && (k + 1 < |list| ==> LinkedAt(k + 1));
      if process.prev == null {
        head := process.next;
        if head != null {
          head.prev := null;
        }
      } else {
        var prevProcess, nextProcess := process.prev, process.next;
        prevProcess.next := nextProcess;
        if nextProcess != null {
          nextProcess.prev := prevProcess;
        }
      }
      list := l[..k] + l[k + 1..];
      forall i | 0 <= i < |list|
        ensures LinkedAt(i)
      {
        var j := if i < k then i else i + 1;
        assert old(LinkedAt(j)) && list[i] == l[j];
      }
    }

    /** process_queue_pop_next: the last one of the highest priority leaves. */
    method PopNext() returns (candidate: Node?, ghost k: nat)
      requires Valid()
      modifies this, list
      ensures Valid() && (candidate == null <==> old(list) == []) && (candidate == null ==> list == [])
      ensures candidate != null ==>
        && k < |old(list)| && old(list)[k] == candidate && list == old(list)[..k] + old(list)[k + 1..]
        && (forall j :: 0 <= j < |old(list)| ==> old(list)[j].priority <= candidate.priority)
        && (forall j :: k < j < |old(list)| ==> old(list)[j].priority < candidate.priority)
      ensures candidate != null ==> Pids(list) == Lists.Remove(Pids(old(list)), candidate.pid)
      ensures candidate != null ==> forall ps: Procs :: RanksOf(ps, old(list)) ==>
          LastOfHighest(ps, Pids(old(list)), candidate.pid)
    {
      var wait: Node? := head;
      candidate, k := null, 0;
      ghost var i := 0;
      while wait != null
        invariant 0 <= i <= |list| && wait == (if i < |list| then list[i] else null)
        invariant candidate == null <==> i == 0
        invariant candidate != null ==> k < i && list[k] == candidate
        invariant candidate != null ==> forall j :: 0 <= j < i ==> list[j].priority <= candidate.priority
        invariant candidate != null ==> forall j :: k < j < i ==> list[j].priority < candidate.priority
        decreases |list| - i
      {
        assert LinkedAt(i);
        if candidate == null || candidate.priority <= wait.priority {
          candidate, k := wait, i;
        }
        wait := wait.next;
        i := i + 1;
      }
      if candidate != null {
        LastIsHighest(list, k);
        Remove(candidate, k);
      }
    }
  }

  /** A list that is linked forward only: the console readers, and the children of a process by their sibling links. */
  class ForwardList {
    var head: Node?
    ghost var list: seq<Node>

    ghost predicate LinkedAt(i: nat)
      requires i < |list|
      reads this, list
    {
      list[i].next == (if i + 1 < |list| then list[i + 1] else null)
    }

    ghost predicate Valid()
      reads this, list
    {
      && NoDups(list) && Distinct(list) && head == (if list == [] then null else list[0])
      && forall i {:trigger LinkedAt(i)} :: 0 <= i < |list| ==> LinkedAt(i)
    }

    constructor ()
      ensures Valid() && list == []
    {
      head, list := null, [];
    }

    /** In process_wait_cons_read and process_start: the new head. */
    method Push(process: Node)
      requires Valid() && process.pid !in Pids(list)
      modifies this, process
      ensures Valid() && list == [process] + old(list) && Pids(list) == [process.pid] + Pids(old(list))
    {
      hide Pids, Distinct;
      PidsPush(list, process);
      process.next := head;
      head := process;
      list := [process] + list;
      forall i | 0 <= i < |list|
        ensures LinkedAt(i)
      {
        if 0 < i {
          assert old(LinkedAt(i - 1));
        }
      }
    }

    /** The walk of process_cons_read_kill_process and process_free: the link that leads to the process skips it. A
        process that is not in the list changes nothing. */
    method Remove(process: Node)
      requires Valid() && (process in list || process.pid !in Pids(list))
      modifies this, list
      ensures Valid() && Pids(list) == Lists.Remove(Pids(old(list)), process.pid)
    {
      hide Pids, Distinct, Lists.Remove;
      Absent(list, process);
      ghost var l := list;
      var prev: Node?, cur: Node? := null, head;
      ghost var i := 0;
      while cur != null && cur != process
        invariant 0 <= i <= |l| && cur == (if i < |l| then l[i] else null) && prev == (if i > 0 then l[i - 1] else null)
        invariant forall j :: 0 <= j < i ==> l[j] != process
        decreases |l| - i
      {
        assert LinkedAt(i);
        prev, cur := cur, cur.next;
        i := i + 1;
      }
      if cur != null {
        assert LinkedAt(i) && (i > 0 ==> LinkedAt(i - 1));
        PidsCut(l, i);
        if prev == null {
          head := cur.next;
        } else {
          prev.next := cur.next;
        }
        list := l[..i] + l[i + 1..];
        forall j | 0 <= j < |list|
          ensures LinkedAt(j)
        {
          var n := if j < i then j else j + 1;
          assert old(LinkedAt(n)) && list[j] == l[n];
        }
      }
    }
  }

  /** The linked ring gives the successor and the rest that the lists of process numbers describe. */
  lemma SameAsLists(l: seq<int>, k: nat)
    requires NoDups(l) && k < |l|
    ensures Remove(l, l[k]) == l[..k] + l[k + 1..]
    ensures NextOf(l, l[k]) == if |l| == 1 then NOBODY else l[Succ(k, |l|)]
  {
    var j := RemoveCutsOnePosition(l, l[k]);
    IndexIs(l, k);
  }

  lemma {:induction false} IndexIs(l: seq<int>, k: nat)
    requires NoDups(l) && k < |l|
    ensures IndexOf(l, l[k]) == k
  {
    if k > 0 {
      IndexIs(l[1..], k - 1);
    }
  }
}
