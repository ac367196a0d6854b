/** Sequences without repetition, as lists of chunks or processes. */
module Lists {

  ghost predicate NoDups<T>(s: seq<T>) { forall a, b :: 0 <= a < b < |s| ==> s[a] != s[b] }

  /** The list without the first occurrence of p. */
  function Remove<T(==)>(s: seq<T>, p: T): (r: seq<T>)
    ensures p !in s ==> r == s
    ensures p in s ==> |r| == |s| - 1
  {
    if s == [] then [] else if s[0] == p then s[1..] else [s[0]] + Remove(s[1..], p)
  }

  lemma {:induction false} RemoveCutsOnePosition<T>(s: seq<T>, p: T) returns (k: nat)
    requires p in s
    ensures k < |s| && s[k] == p && p !in s[..k] && Remove(s, p) == s[..k] + s[k + 1..]
  {
    if s[0] == p {
      k := 0;
    } else {
      var j := RemoveCutsOnePosition(s[1..], p);
      k := j + 1;
      assert s[..k] == [s[0]] + s[1..][..j];
    }
  }

  /** A list without its k-th element. */
  lemma CutMembers<T>(s: seq<T>, k: nat)
    requires NoDups(s) && k < |s|
    ensures forall q :: q in s[..k] + s[k + 1..] <==> q in s && q != s[k]
  {
    var r := s[..k] + s[k + 1..];
    forall q | q in s && q != s[k]
      ensures q in r
    {
      var i :| 0 <= i < |s| && s[i] == q;
      assert r[if i < k then i else i - 1] == q;
    }
    forall q | q in r
      ensures q in s && q != s[k]
    {
      var i :| 0 <= i < |r| && r[i] == q;
      assert s[if i < k then i else i + 1] == q;
    }
  }

  lemma RemoveMembers<T>(s: seq<T>, p: T)
    requires NoDups(s)
    ensures NoDups(Remove(s, p))
    ensures forall q :: q in Remove(s, p) <==> q in s && q != p
  {
    if p in s {
      var k := RemoveCutsOnePosition(s, p);
      CutMembers(s, k);
    }
  }

  lemma RemoveLast<T>(s: seq<T>)
    requires s != [] && NoDups(s)
    ensures Remove(s, s[|s| - 1]) == s[..|s| - 1]
  {
    var k := RemoveCutsOnePosition(s, s[|s| - 1]);
    assert s[..|s| - 1] + s[|s|..] == s[..|s| - 1];
  }

  /** The list without the members of a set. */
  ghost function Without<T(!new)>(s: seq<T>, k: set<T>): (r: seq<T>)
    ensures forall x :: x in r <==> x in s && x !in k
  {
    if s == [] then [] else if s[0] in k then Without(s[1..], k) else [s[0]] + Without(s[1..], k)
  }

  lemma {:induction false} WithoutNoDups<T(!new)>(s: seq<T>, k: set<T>)
    requires NoDups(s)
    ensures NoDups(Without(s, k))
  {
    if s != [] {
      WithoutNoDups(s[1..], k);
      assert s[0] !in s[1..];
    }
  }

  lemma {:induction false} WithoutNone<T(!new)>(s: seq<T>, k: set<T>)
    requires forall x :: x in s ==> x !in k
    ensures Without(s, k) == s
  {
    if s != [] {
      assert forall x :: x in s[1..] ==> x in s;
      WithoutNone(s[1..], k);
    }
  }

  lemma {:induction false} WithoutTwice<T(!new)>(s: seq<T>, a: set<T>, b: set<T>)
    ensures Without(Without(s, a), b) == Without(s, a + b)
  {
    if s != [] {
      WithoutTwice(s[1..], a, b);
    }
  }

  lemma {:induction false} WithoutOne<T(!new)>(s: seq<T>, p: T)
    requires NoDups(s)
    ensures Without(s, {p}) == Remove(s, p)
  {
    if s != [] {
      if s[0] == p {
        assert p !in s[1..];
        WithoutNone(s[1..], {p});
      } else {
        WithoutOne(s[1..], p);
      }
    }
  }

  lemma {:induction false} WithoutFront<T(!new)>(a: seq<T>, b: seq<T>, k: set<T>)
    requires (forall x :: x in a ==> x in k) && forall x :: x in b ==> x !in k
    ensures Without(a + b, k) == b
  {
    if a == [] {
      assert a + b == b;
      WithoutNone(b, k);
    } else {
      assert (a + b)[1..] == a[1..] + b;
      WithoutFront(a[1..], b, k);
    }
  }

  lemma NoMembers(l: seq<int>)
    requires forall p :: p !in l
    ensures l == []
  {
    var p := if l == [] then 0 else l[0];
    assert l != [] ==> p in l;
  }
}
