/** The walks over the sleeper list in process_time_queue_add and process_time_queue_remove, one iteration at a time. */
module SleepWalks {
  import opened Lists
  import opened Processes

  /** A walk that is at a link of the list, or over with the list that it leaves. */
  datatype Walk = At(link: nat) | Over(list: seq<int>)

  /** An iteration of the removal: the pointer to the link is never moved on. */
  function RemoveStep(l: seq<int>, p: int, w: Walk): Walk {
    match w
    case Over(_) => w
    case At(i) => if i >= |l| then Over(l) else if l[i] == p then Over(l[..i] + l[i + 1..]) else w
  }

  function RemoveWalk(l: seq<int>, p: int, iterations: nat): Walk {
    if iterations == 0 then At(0) else RemoveStep(l, p, RemoveWalk(l, p, iterations - 1))
  }

  /** The head of the list is not in front of this clock. */
  predicate NotLater(ps: Procs, p: int, clock: int) { p in ps && ps[p].state.WaitTime? && clock <= ps[p].state.clock }

  /** An iteration of the insertion, which does not move on either. */
  function InsertStep(ps: Procs, l: seq<int>, p: int, clock: int, w: Walk): Walk {
    match w
    case Over(_) => w
    case At(i) => if i >= |l| then Over(l + [p]) else if NotLater(ps, l[i], clock) then Over(l[..i] + [p] + l[i..])
        else w
  }

  function InsertWalk(ps: Procs, l: seq<int>, p: int, clock: int, iterations: nat): Walk {
    if iterations == 0 then At(0) else InsertStep(ps, l, p, clock, InsertWalk(ps, l, p, clock, iterations - 1))
  }

  ghost predicate RemovalEnds(l: seq<int>, p: int) { exists n: nat :: RemoveWalk(l, p, n).Over? }

  ghost predicate InsertionEnds(ps: Procs, l: seq<int>, p: int, clock: int) {
    exists n: nat :: InsertWalk(ps, l, p, clock, n).Over?
  }

  /** The test of the first link decides. */
  predicate RemovesAtHead(l: seq<int>, p: int) { l == [] || l[0] == p }

  predicate InsertsAtHead(ps: Procs, l: seq<int>, clock: int) { l == [] || NotLater(ps, l[0], clock) }

  lemma {:induction false} RemoveStays(l: seq<int>, p: int, n: nat)
    ensures RemoveWalk(l, p, n) == if n > 0 && RemovesAtHead(l, p) then Over(Remove(l, p)) else At(0)
  {
    if n > 0 {
      RemoveStays(l, p, n - 1);
      assert l != [] ==> l[..0] + l[1..] == l[1..];
    }
  }

  lemma {:induction false} InsertStays(ps: Procs, l: seq<int>, p: int, clock: int, n: nat)
    ensures InsertWalk(ps, l, p, clock, n) == if n > 0 && InsertsAtHead(ps, l, clock) then Over([p] + l) else At(0)
  {
    if n > 0 {
      InsertStays(ps, l, p, clock, n - 1);
      assert l[..0] + [p] + l[0..] == [p] + l && (l == [] ==> l + [p] == [p] + l);
    }
  }

  /** A removal ends exactly when the list is empty or the process is at its head, and then the process is out. */
  lemma RemovalEndsAtHead(l: seq<int>, p: int)
    ensures RemovalEnds(l, p) <==> RemovesAtHead(l, p)
    ensures forall n: nat :: RemoveWalk(l, p, n).Over? ==> RemoveWalk(l, p, n) == Over(Remove(l, p))
  {
    forall n: nat
      ensures RemoveWalk(l, p, n) == if n > 0 && RemovesAtHead(l, p) then Over(Remove(l, p)) else At(0)
    {
      RemoveStays(l, p, n);
    }
    RemoveStays(l, p, 1);
  }

  /** An insertion ends exactly when the list is empty or its head is not earlier, and then the process is the new
      head. */
  lemma InsertionEndsAtHead(ps: Procs, l: seq<int>, p: int, clock: int)
    ensures InsertionEnds(ps, l, p, clock) <==> InsertsAtHead(ps, l, clock)
    ensures forall n: nat :: InsertWalk(ps, l, p, clock, n).Over? ==> InsertWalk(ps, l, p, clock, n) == Over([p] + l)
  {
    forall n: nat
      ensures InsertWalk(ps, l, p, clock, n) == if n > 0 && InsertsAtHead(ps, l, clock) then Over([p] + l) else At(0)
    {
      InsertStays(ps, l, p, clock, n);
    }
    InsertStays(ps, l, p, clock, 1);
  }
}
