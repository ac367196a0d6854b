/** The sorted queue of shared/queue.h as it is linked: a circular list with its head, ascending by priority. */
module SortedQueue {
  import opened Lists
  import opened ProcessLinks
  import opened WaitOrder

  class Link {
    const elem: Elem
    var prev: Link?
    var next: Link?
    constructor (elem: Elem)
      ensures this.elem == elem && prev == null && next == null
    {
      this.elem := elem;
      prev, next := null, null;
    }
  }

  function Elems(l: seq<Link>): (r: seq<Elem>)
    ensures |r| == |l| && forall i :: 0 <= i < |l| ==> r[i] == l[i].elem
  {
    if l == [] then [] else [l[0].elem] + Elems(l[1..])
  }

  lemma {:induction false} ElemsOf(a: seq<Link>, b: seq<Link>)
    ensures Elems(a + b) == Elems(a) + Elems(b)
  {
    if a == [] {
      assert a + b == b;
    } else {
      assert (a + b)[1..] == a[1..] + b;
      ElemsOf(a[1..], b);
    }
  }

  /** Where an element goes: behind all that are less urgent than it. */
  lemma {:induction false} InsertAt(x: Elem, q: seq<Elem>, j: nat)
    requires j <= |q| && (forall i :: 0 <= i < j ==> q[i].priority < x.priority)
    requires j < |q| ==> q[j].priority >= x.priority
    ensures Insert(x, q) == q[..j] + [x] + q[j..]
  {
    if j > 0 {
      InsertAt(x, q[1..], j - 1);
      assert q[..j] == [q[0]] + q[1..][..j - 1] && q[1..][j - 1..] == q[j..];
    }
  }

  class Queue {
    const head: Link
    // the head, and the elements behind it in the order of the next links
    ghost var ring: seq<Link>

    ghost predicate LinkedAt(i: nat)
      requires i < |ring|
      reads this, ring
    {
      ring[i].next == ring[Succ(i, |ring|)] && ring[i].prev == ring[Pred(i, |ring|)]
    }

    ghost predicate Valid()
      reads this, ring
    {
      && NoDups(ring) && ring != [] && ring[0] == head
      && forall i {:trigger LinkedAt(i)} :: 0 <= i < |ring| ==> LinkedAt(i)
    }

    ghost function Contents(): seq<Elem>
      requires ring != []
      reads this
    {
      Elems(ring[1..])
    }

    constructor ()
      ensures Valid() && Contents() == []
    {
      var l := new Link(Elem(0, 0));
      l.prev, l.next := l, l;
      head, ring := l, [l];
    }

    /** queue_add. */
    method Add(e: Link)
      requires Valid() && e !in ring && e.prev == null && e.next == null
      modifies this, e, ring
      ensures Valid() && Contents() == Insert(e.elem, old(Contents())) && e in ring
    {
      ghost var r, n := ring, |ring|;
      assert LinkedAt(0);
      var cur: Link := head.next;
      ghost var j := 1;
      while cur != head && cur.elem.priority < e.elem.priority
        invariant 1 <= j <= n && cur == (if j < n then r[j] else head)
        invariant forall i :: 1 <= i < j ==> r[i].elem.priority < e.elem.priority
        decreases n - j
      {
        assert LinkedAt(j);
        cur := cur.next;
        j := j + 1;
      }
      Splice(e, cur, j);
      var q := Elems(r[1..]);
      InsertAt(e.elem, q, j - 1);
      SplicedElems(r, e, j);
    }

    /** The four links that put an element in front of another one. */
    method Splice(e: Link, cur: Link, ghost j: nat)
      requires Valid() && e !in ring && 1 <= j <= |ring| && cur == (if j < |ring| then ring[j] else head)
      modifies this, e, ring
      ensures Valid() && ring == old(ring)[..j] + [e] + old(ring)[j..]
    {
      ghost var r, n := ring, |ring|;
      ghost var s := SpliceSeq(r, e, j);
      assert LinkedAt(j - 1) && (if j < n then LinkedAt(j) else LinkedAt(0));
      e.next := cur;
      e.prev := cur.prev;
      cur.prev.next := e;
      cur.prev := e;
      ring := s;
      forall i | 0 <= i < n + 1
        ensures LinkedAt(i)
      {
        if i != j {
          assert old(LinkedAt(if i < j then i else i - 1));
        }
        SpliceIndex(i, j, n);
      }
    }

    /** queue_out: the element at the tail, NULL when there is none. */
    method Out() returns (e: Link?)
      requires Valid()
      modifies this, ring
      ensures Valid() && (e == null <==> old(Contents()) == []) && (e == null ==> Contents() == old(Contents()))
      ensures e != null ==>
          e.elem == old(Contents())[|old(Contents())| - 1] && Contents() == old(Contents())[..|old(Contents())| - 1]
      ensures e != null ==> e !in ring && e.prev == null && e.next == null
    {
      ghost var r, n := ring, |ring|;
      assert LinkedAt(0);
      if head.next == head {
        assert n == 1;
        return null;
      }
      e := head.prev;
      CutOut(e, n - 1);
      assert r[..n - 1] + r[n..] == r[..n - 1] && r[..n - 1][1..] == r[1..][..n - 2];
      assert r[1..] == r[1..][..n - 2] + [r[n - 1]];
      ElemsOf(r[1..][..n - 2], [r[n - 1]]);
    }

    /** queue_del. */
    method Del(e: Link, ghost k: nat)
      requires Valid() && 1 <= k < |ring| && ring[k] == e
      modifies this, ring
      ensures Valid() && ring == old(ring)[..k] + old(ring)[k + 1..] && e !in ring && e.prev == null && e.next == null
      ensures Contents() == Cut(old(Contents()), k - 1)
      ensures WaitOrder.Distinct(old(Contents())) ==> Contents() == Dropped(old(Contents()), e.elem.id)
    {
      hide Elems, Dropped, Cut, WaitOrder.Distinct;
      CutElems(ring, k);
      CutOut(e, k);
    }

    /** The unlinking in queue_del and queue_out. */
    method CutOut(e: Link, ghost k: nat)
      requires Valid() && 1 <= k < |ring| && ring[k] == e
      modifies this, ring
      ensures Valid() && ring == old(ring)[..k] + old(ring)[k + 1..] && e !in ring && e.prev == null && e.next == null
    {
      ghost var r, n := ring, |ring|;
      ghost var s := CutSeq(r, k);
      Unlink(e, k);
      ring := s;
      forall i | 0 <= i < n - 1
        ensures LinkedAt(i)
      {
        CutIndex(i, k, n);
        assert s[i] == r[if i < k then i else i + 1];
      }
    }

    method Unlink(e: Link, ghost k: nat)
      requires Valid() && 1 <= k < |ring| && ring[k] == e
      modifies ring
      ensures e.prev == null && e.next == null
      ensures forall j :: 0 <= j < |ring| && j != k ==>
          ring[j].next == ring[if j == Pred(k, |ring|) then Succ(k, |ring|) else Succ(j, |ring|)]
      ensures forall j :: 0 <= j < |ring| && j != k ==>
          ring[j].prev == ring[if j == Succ(k, |ring|) then Pred(k, |ring|) else Pred(j, |ring|)]
    {
      ghost var n := |ring|;
      assert LinkedAt(k) && LinkedAt(Pred(k, n)) && LinkedAt(Succ(k, n));
      e.prev.next := e.next;
      e.next.prev := e.prev;
      e.next := null;
      e.prev := null;
      forall j | 0 <= j < n && j != k
        ensures ring[j].next == ring[if j == Pred(k, n) then Succ(k, n) else Succ(j, n)]
        ensures ring[j].prev == ring[if j == Succ(k, n) then Pred(k, n) else Pred(j, n)]
      {
        assert old(LinkedAt(j));
      }
    }
  }

  /** Unlinking one element drops it from the contents. */
  lemma CutElems(r: seq<Link>, k: nat)
    requires 1 <= k < |r|
    ensures var q := Elems(r[1..]);
            && Elems((r[..k] + r[k + 1..])[1..]) == Cut(q, k - 1)
            && (WaitOrder.Distinct(q) ==> Cut(q, k - 1) == Dropped(q, r[k].elem.id))
  {
    var t := r[1..];
    var q := Elems(t);
    assert (r[..k] + r[k + 1..])[1..] == t[..k - 1] + t[k..];
    ElemsOf(t[..k - 1], t[k..]);
    ElemsOf(t[..k - 1], t[k - 1..]);
    assert t == t[..k - 1] + t[k - 1..] && t[k - 1..][1..] == t[k..];
    assert q == Elems(t[..k - 1]) + Elems(t[k - 1..]) && q[k - 1] == r[k].elem;
    if WaitOrder.Distinct(q) {
      var f := Find(q, r[k].elem.id);
      assert f == k - 1;
    }
  }

  lemma SplicedElems(r: seq<Link>, e: Link, j: nat)
    requires 1 <= j <= |r|
    ensures var s, q := r[..j] + [e] + r[j..], Elems(r[1..]);
            Elems(s[1..]) == q[..j - 1] + [e.elem] + q[j - 1..]
  {
    var s := r[..j] + [e] + r[j..];
    assert s[1..] == r[1..][..j - 1] + [e] + r[1..][j - 1..];
  }

  lemma SpliceSeq(r: seq<Link>, e: Link, j: nat) returns (s: seq<Link>)
    requires NoDups(r) && e !in r && 1 <= j <= |r|
    ensures s == r[..j] + [e] + r[j..] && |s| == |r| + 1 && NoDups(s) && s[0] == r[0] && s[j] == e
    ensures forall i :: 0 <= i < |s| && i != j ==> s[i] == r[if i < j then i else i - 1]
  {
    s := r[..j] + [e] + r[j..];
  }

  lemma CutSeq(r: seq<Link>, k: nat) returns (s: seq<Link>)
    requires NoDups(r) && 1 <= k < |r|
    ensures s == r[..k] + r[k + 1..] && |s| == |r| - 1 && NoDups(s) && s[0] == r[0] && r[k] !in s
    ensures forall i :: 0 <= i < |s| ==> s[i] == r[if i < k then i else i + 1]
  {
    s := r[..k] + r[k + 1..];
  }

  /** How the neighbours in a ring with one element more at position j are found in the ring of n. */
  lemma SpliceIndex(i: nat, j: nat, n: nat)
    requires 1 <= j <= n && i < n + 1
    ensures var s, p := Succ(i, n + 1), Pred(i, n + 1);
            && (i == j ==> p == j - 1 && (if j < n then s == j + 1 else s == 0))
            && (i != j && s != j ==> (if s < j then s else s - 1) == Succ(if i < j then i else i - 1, n))
            && (i != j && p != j ==> (if p < j then p else p - 1) == Pred(if i < j then i else i - 1, n))
            && (s == j <==> i == j - 1) && (p == j <==> i == (if j < n then j + 1 else 0))
  {
  }
}
