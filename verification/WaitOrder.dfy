/** Who goes first: the unsorted wait list of the kernel and the sorted queue of shared/queue.h give the same answer. */
module WaitOrder {
  datatype Elem = Elem(id: int, priority: int)

  // ----- the wait list: newest first, not sorted -----

  /** Position of the last element of the highest priority: the one that has waited longest among the most urgent. */
  function LastHighest(w: seq<Elem>): (k: nat)
    requires w != []
    ensures k < |w|
    ensures forall i :: 0 <= i < |w| ==> w[i].priority <= w[k].priority
    ensures forall i :: k < i < |w| ==> w[i].priority < w[k].priority
  {
    if |w| == 1 then 0
    else var k := LastHighest(w[1..]); if w[0].priority > w[1..][k].priority then 0 else k + 1
  }

  function Cut<T>(w: seq<T>, k: nat): seq<T>
    requires k < |w|
  {
    w[..k] + w[k + 1..]
  }

  // ----- the sorted queue: ascending, taken from the tail -----

  /** An element goes in front of the first one that is at least as urgent. */
  function Insert(x: Elem, q: seq<Elem>): seq<Elem> {
    if q == [] || q[0].priority >= x.priority then [x] + q else [q[0]] + Insert(x, q[1..])
  }

  ghost predicate Ascending(q: seq<Elem>) { forall i, j :: 0 <= i < j < |q| ==> q[i].priority <= q[j].priority }

  /** The queue that holds the same elements, inserted oldest first. */
  function Sorted(w: seq<Elem>): seq<Elem> { if w == [] then [] else Insert(w[0], Sorted(w[1..])) }

  lemma {:induction false} InsertMembers(x: Elem, q: seq<Elem>)
    ensures |Insert(x, q)| == |q| + 1 && forall e :: e in Insert(x, q) <==> e == x || e in q
  {
    if q != [] && q[0].priority < x.priority {
      InsertMembers(x, q[1..]);
      assert q == [q[0]] + q[1..];
    }
  }

  lemma {:induction false} InsertAscends(x: Elem, q: seq<Elem>)
    requires Ascending(q)
    ensures Ascending(Insert(x, q))
  {
    if q != [] && q[0].priority < x.priority {
      InsertAscends(x, q[1..]);
      InsertMembers(x, q[1..]);
      var r := Insert(x, q[1..]);
      forall i | 0 <= i < |r|
        ensures q[0].priority <= r[i].priority
      {
        assert r[i] in r;
      }
    }
  }

  lemma {:induction false} SortedFacts(w: seq<Elem>)
    ensures Ascending(Sorted(w)) && |Sorted(w)| == |w| && forall e :: e in Sorted(w) <==> e in w
  {
    if w != [] {
      SortedFacts(w[1..]);
      InsertAscends(w[0], Sorted(w[1..]));
      InsertMembers(w[0], Sorted(w[1..]));
      assert w == [w[0]] + w[1..];
    }
  }

  lemma {:induction false} InsertAtEnd(x: Elem, q: seq<Elem>)
    requires forall e :: e in q ==> e.priority < x.priority
    ensures Insert(x, q) == q + [x]
  {
    if q != [] {
      var first := q[0];
      assert first in q;
      InsertAtEnd(x, q[1..]);
    }
  }

  lemma {:induction false} InsertBeforeLast(x: Elem, q: seq<Elem>, m: Elem)
    requires x.priority <= m.priority
    ensures Insert(x, q + [m]) == Insert(x, q) + [m]
  {
    if q != [] && q[0].priority < x.priority {
      InsertBeforeLast(x, q[1..], m);
      assert (q + [m])[1..] == q[1..] + [m];
    }
  }

  /** The element that leaves the wait list is at the tail of the sorted queue, and the rest stay the same. */
  lemma {:induction false} SamePop(w: seq<Elem>)
    requires w != []
    ensures Sorted(w) == Sorted(Cut(w, LastHighest(w))) + [w[LastHighest(w)]]
  {
    var x, rest := w[0], w[1..];
    if rest == [] {
      assert Cut(w, 0) == [];
    } else {
      var k := LastHighest(rest);
      SamePop(rest);
      var m := rest[k];
      SortedFacts(rest);
      if x.priority > m.priority {
        assert Cut(w, 0) == rest;
        forall e | e in Sorted(rest)
          ensures e.priority < x.priority
        {
          assert e in rest;
        }
        InsertAtEnd(x, Sorted(rest));
      } else {
        assert Cut(w, k + 1) == [x] + Cut(rest, k);
        InsertBeforeLast(x, Sorted(Cut(rest, k)), m);
      }
    }
  }

  // ----- taking any element out -----

  /** Position of an element in a list; the length when it is not there. */
  function Find(w: seq<Elem>, id: int): (k: nat)
    ensures k <= |w| && (k < |w| ==> w[k].id == id) && forall i :: 0 <= i < k ==> w[i].id != id
  {
    if w == [] || w[0].id == id then 0 else Find(w[1..], id) + 1
  }

  /** The list without an element; the list itself when it is not there. */
  function Dropped(w: seq<Elem>, id: int): seq<Elem> { if Find(w, id) < |w| then Cut(w, Find(w, id)) else w }

  lemma DropStep(w: seq<Elem>, id: int)
    ensures Dropped(w, id) == if w == [] then [] else if w[0].id == id then w[1..] else [w[0]] + Dropped(w[1..], id)
  {
    if w != [] && w[0].id != id {
      var k := Find(w[1..], id);
      if k < |w| - 1 {
        assert w[..k + 1] == [w[0]] + w[1..][..k] && w[k + 2..] == w[1..][k + 1..];
      }
    }
  }

  ghost predicate Distinct(w: seq<Elem>) { forall i, j :: 0 <= i < j < |w| ==> w[i].id != w[j].id }

  lemma {:induction false} InsertThenRemove(x: Elem, q: seq<Elem>)
    requires forall e :: e in q ==> e.id != x.id
    ensures Dropped(Insert(x, q), x.id) == q
  {
    DropStep(Insert(x, q), x.id);
    if q != [] && q[0].priority < x.priority {
      var first := q[0];
      assert first in q;
      InsertThenRemove(x, q[1..]);
    }
  }

  lemma {:induction false} RemoveThenInsert(x: Elem, q: seq<Elem>, id: int)
    requires Ascending(q) && x.id != id
    ensures Dropped(Insert(x, q), id) == Insert(x, Dropped(q, id))
  {
    hide Dropped, Find, Cut;
    DropStep(Insert(x, q), id);
    DropStep(q, id);
    if q != [] && q[0].priority < x.priority {
      if q[0].id == id {
      } else {
        RemoveThenInsert(x, q[1..], id);
      }
    } else if q != [] {
      DroppedMembers(q, id);
      var r := Dropped(q, id);
      if r != [] {
        var first := r[0];
        assert first in r && first in q;
      }
    }
  }

  lemma {:induction false} DroppedMembers(w: seq<Elem>, id: int)
    ensures forall e :: e in Dropped(w, id) ==> e in w
    ensures Distinct(w) ==> Distinct(Dropped(w, id)) && forall e :: e in Dropped(w, id) <==> e in w && e.id != id
  {
    hide Dropped, Find, Cut;
    DropStep(w, id);
    if w != [] {
      DroppedMembers(w[1..], id);
      assert w == [w[0]] + w[1..];
      if Distinct(w) {
        forall e | e in w[1..]
          ensures e.id != w[0].id
        {
          var j :| 0 <= j < |w[1..]| && w[1..][j] == e;
          assert w[j + 1] == e;
        }
      }
    }
  }

  /** An element that is taken out of the wait list leaves the sorted queue of the rest. */
  lemma {:induction false} SameRemove(w: seq<Elem>, id: int)
    requires Distinct(w)
    ensures Sorted(Dropped(w, id)) == Dropped(Sorted(w), id)
  {
    hide Dropped, Find, Cut;
    DropStep(w, id);
    DropStep([], id);
    if w != [] {
      var x := w[0];
      SortedFacts(w[1..]);
      if x.id == id {
        forall e | e in Sorted(w[1..])
          ensures e.id != x.id
        {
          assert e in w[1..];
          var j :| 0 <= j < |w[1..]| && w[1..][j] == e;
          assert w[j + 1] == e;
        }
        InsertThenRemove(x, Sorted(w[1..]));
      } else {
        SameRemove(w[1..], id);
        RemoveThenInsert(x, Sorted(w[1..]), id);
      }
    }
  }

  // ----- whole runs -----

  datatype Op = Add(e: Elem) | Pop | Drop(id: int) | Rerank(id: int, priority: int)

  datatype Delivery = Delivery(rest: seq<Elem>, out: seq<Elem>)

  /** A run on the wait list: what is left and what came out. Adding twice what waits already has no effect. */
  function RunWait(w: seq<Elem>, ops: seq<Op>): Delivery
    decreases |ops|
  {
    if ops == [] then Delivery(w, []) else
    match ops[0]
    case Add(e) => RunWait(if Find(w, e.id) < |w| then w else [e] + w, ops[1..])
    case Pop =>
      if w == [] then RunWait(w, ops[1..])
      else var k := LastHighest(w); var d := RunWait(Cut(w, k), ops[1..]); d.(out := [w[k]] + d.out)
    case Drop(id) => RunWait(Dropped(w, id), ops[1..])
    case Rerank(id, p) => RunWait(if Find(w, id) < |w| then [Elem(id, p)] + Dropped(w, id) else w, ops[1..])
  }

  /** The same run on the sorted queue. */
  function RunQueue(q: seq<Elem>, ops: seq<Op>): Delivery
    decreases |ops|
  {
    if ops == [] then Delivery(q, []) else
    match ops[0]
    case Add(e) => RunQueue(if Find(q, e.id) < |q| then q else Insert(e, q), ops[1..])
    case Pop =>
      if q == [] then RunQueue(q, ops[1..])
      else var d := RunQueue(q[..|q| - 1], ops[1..]); d.(out := [q[|q| - 1]] + d.out)
    case Drop(id) => RunQueue(Dropped(q, id), ops[1..])
    case Rerank(id, p) => RunQueue(if Find(q, id) < |q| then Insert(Elem(id, p), Dropped(q, id)) else q, ops[1..])
  }

  lemma SameFind(w: seq<Elem>, q: seq<Elem>, id: int)
    requires |q| == |w| && forall e :: e in q <==> e in w
    ensures Find(w, id) < |w| <==> Find(q, id) < |q|
  {
    if Find(w, id) < |w| {
      assert w[Find(w, id)] in q;
      var j :| 0 <= j < |q| && q[j] == w[Find(w, id)];
    }
    if Find(q, id) < |q| {
      assert q[Find(q, id)] in w;
      var j :| 0 <= j < |w| && w[j] == q[Find(q, id)];
    }
  }

  lemma CutDistinct(w: seq<Elem>, k: nat)
    requires Distinct(w) && k < |w|
    ensures Distinct(Cut(w, k))
  {
  }

  lemma AddDistinct(w: seq<Elem>, e: Elem)
    requires Distinct(w) && forall x :: x in w ==> x.id != e.id
    ensures Distinct([e] + w)
  {
    var r := [e] + w;
    forall i, j | 0 <= i < j < |r|
      ensures r[i].id != r[j].id
    {
      assert r[j] in w;
    }
  }

  /** For every run of insertions, pops, removals and priority changes both deliver the same elements in the same
      order. */
  lemma {:induction false} SameRuns(w: seq<Elem>, ops: seq<Op>)
    requires Distinct(w)
    ensures RunQueue(Sorted(w), ops).out == RunWait(w, ops).out
    ensures RunQueue(Sorted(w), ops).rest == Sorted(RunWait(w, ops).rest)
    decreases |ops|
  {
    if ops != [] {
      SortedFacts(w);
      match ops[0] {
        case Add(e) =>
          SameFind(w, Sorted(w), e.id);
          if Find(w, e.id) < |w| {
            SameRuns(w, ops[1..]);
          } else {
            AddDistinct(w, e);
            assert ([e] + w)[1..] == w;
            SameRuns([e] + w, ops[1..]);
          }
        case Pop =>
          if w == [] {
            SameRuns(w, ops[1..]);
          } else {
            var k := LastHighest(w);
            SamePop(w);
            assert Sorted(w)[..|w| - 1] == Sorted(Cut(w, k));
            CutDistinct(w, k);
            SameRuns(Cut(w, k), ops[1..]);
          }
        case Drop(id) =>
          SameRemove(w, id);
          DroppedMembers(w, id);
          SameRuns(Dropped(w, id), ops[1..]);
        case Rerank(id, p) =>
          SameFind(w, Sorted(w), id);
          if Find(w, id) < |w| {
            DroppedMembers(w, id);
            SameRemove(w, id);
            var w' := [Elem(id, p)] + Dropped(w, id);
            AddDistinct(Dropped(w, id), Elem(id, p));
            assert w'[1..] == Dropped(w, id);
            SameRuns(w', ops[1..]);
          } else {
            SameRuns(w, ops[1..]);
          }
      }
    }
  }
}
