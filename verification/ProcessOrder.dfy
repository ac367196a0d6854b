/** The order in which a kill goes through a subtree, and whether all its walks over the sleeper list end. */
module ProcessOrder {
  import opened Lists
  import opened Processes
  import opened ProcessTree

  /** The processes that a kill of p reaches, in order: p, then the subtrees of its children one after the other. It
      goes no further than the subtree of `stop`, the active process, whose death switches away. */
  ghost function Reached(ps: Procs, depth: Depths, p: int, stop: int): seq<int>
    requires Tree(ps, depth) && p in ps
    decreases Below(Parents(ps), depth, p), |ps[p].children| + 1
  {
    [p] + ReachedOf(ps, depth, p, ps[p].children, stop)
  }

  /** The same for some children of p. */
  ghost function ReachedOf(ps: Procs, depth: Depths, p: int, l: seq<int>, stop: int): seq<int>
    requires Tree(ps, depth) && p in ps && forall c :: c in l ==> c in ps[p].children
    decreases Below(Parents(ps), depth, p), |l|
  {
    if l == [] then [] else
    BelowChild(ps, depth, p, l[0]);
    ChildOf(ps, depth, p, l[0]);
    var r := Reached(ps, depth, l[0], stop);
    if stop in r then r else r + ReachedOf(ps, depth, p, l[1..], stop)
  }

  /** The sleepers of a list, in its order. */
  ghost function SleepersOf(ps: Procs, l: seq<int>): seq<int> {
    if l == [] then []
    else if l[0] in ps && ps[l[0]].state.WaitTime? then [l[0]] + SleepersOf(ps, l[1..]) else SleepersOf(ps, l[1..])
  }

  /** The sleepers that a kill reaches are at the front of the sleeper list, in the order in which it reaches them. */
  ghost predicate WalksEnd(s: Sys, p: int)
    requires Tree(s.procs, s.depth) && p in s.procs
  {
    SleepersOf(s.procs, Reached(s.procs, s.depth, p, s.active)) <= s.sleepers
  }

  /** The same for the children that are left. */
  ghost predicate ChildWalksEnd(s: Sys, p: int)
    requires Tree(s.procs, s.depth) && p in s.procs
  {
    SleepersOf(s.procs, ReachedOf(s.procs, s.depth, p, s.procs[p].children, s.active)) <= s.sleepers
  }

  // ----- who is reached -----

  lemma {:induction false} ReachedBelow(ps: Procs, depth: Depths, p: int, stop: int)
    requires Tree(ps, depth) && p in ps
    ensures p in Reached(ps, depth, p, stop)
    ensures forall x :: x in Reached(ps, depth, p, stop) ==> x in Below(Parents(ps), depth, p)
    decreases Below(Parents(ps), depth, p), |ps[p].children| + 1
  {
    ReachedOfBelow(ps, depth, p, ps[p].children, stop);
    assert Ancestor(Parents(ps), depth, p, p);
  }

  lemma {:induction false} ReachedOfBelow(ps: Procs, depth: Depths, p: int, l: seq<int>, stop: int)
    requires Tree(ps, depth) && p in ps && forall c :: c in l ==> c in ps[p].children
    ensures forall x :: x in ReachedOf(ps, depth, p, l, stop) ==> x in Below(Parents(ps), depth, p) - {p}
    decreases Below(Parents(ps), depth, p), |l|
  {
    if l != [] {
      var c := l[0];
      BelowChild(ps, depth, p, c);
      ChildOf(ps, depth, p, c);
      ReachedBelow(ps, depth, c, stop);
      ReachedOfBelow(ps, depth, p, l[1..], stop);
    }
  }

  /** A strict descendant is at or below one of the children. */
  lemma {:induction false} UnderChild(ps: Procs, depth: Depths, p: int, x: int) returns (c: int)
    requires Tree(ps, depth) && p in ps && x in Below(Parents(ps), depth, p) - {p}
    ensures c in ps[p].children && c in ps && x in Below(Parents(ps), depth, c)
    decreases if x in depth then depth[x] else 0
  {
    assert Branch(ps, depth, x);
    StepUp(ps, depth, x, p);
    if ps[x].parent == p {
      c := x;
    } else {
      c := UnderChild(ps, depth, p, ps[x].parent);
      ChildOf(ps, depth, p, c);
      StepUp(ps, depth, x, c);
    }
  }

  /** A kill reaches the whole subtree, unless it reaches the active process in it. */
  lemma {:induction false} ReachesAll(ps: Procs, depth: Depths, p: int, stop: int)
    requires Tree(ps, depth) && p in ps
    ensures stop in ReachedOf(ps, depth, p, ps[p].children, stop)
            || forall x :: x in Below(Parents(ps), depth, p) ==> x in Reached(ps, depth, p, stop)
    decreases Below(Parents(ps), depth, p), |ps[p].children| + 1
  {
    ReachesAllOf(ps, depth, p, ps[p].children, stop);
    if stop !in ReachedOf(ps, depth, p, ps[p].children, stop) {
      forall x | x in Below(Parents(ps), depth, p)
        ensures x in Reached(ps, depth, p, stop)
      {
        if x != p {
          var c := UnderChild(ps, depth, p, x);
        }
      }
    }
  }

  lemma {:induction false} ReachesAllOf(ps: Procs, depth: Depths, p: int, l: seq<int>, stop: int)
    requires Tree(ps, depth) && p in ps && forall c :: c in l ==> c in ps[p].children
    ensures stop in ReachedOf(ps, depth, p, l, stop)
            || forall c, x :: c in l && x in Below(Parents(ps), depth, c) ==> x in ReachedOf(ps, depth, p, l, stop)
    decreases Below(Parents(ps), depth, p), |l|
  {
    if l != [] {
      var first := l[0];
      BelowChild(ps, depth, p, first);
      ChildOf(ps, depth, p, first);
      ReachesAll(ps, depth, first, stop);
      ReachesAllOf(ps, depth, p, l[1..], stop);
      assert l == [first] + l[1..];
    }
  }

  /** The members of what a kill reaches: all of the subtree when the active process is not in it; else the active
      process is among them. */
  lemma ReachedMembers(ps: Procs, depth: Depths, p: int, stop: int)
    requires Tree(ps, depth) && p in ps
    ensures stop in Reached(ps, depth, p, stop) <==> stop in Below(Parents(ps), depth, p)
    ensures stop !in Below(Parents(ps), depth, p) - {p} ==>
              forall x :: x in Reached(ps, depth, p, stop) <==> x in Below(Parents(ps), depth, p)
  {
    ReachedBelow(ps, depth, p, stop);
    ReachedOfBelow(ps, depth, p, ps[p].children, stop);
    ReachesAll(ps, depth, p, stop);
  }

  /** When the active process is reached, so is its whole subtree. */
  lemma {:induction false} ReachesStop(ps: Procs, depth: Depths, p: int, stop: int)
    requires Tree(ps, depth) && p in ps && stop in Reached(ps, depth, p, stop)
    ensures stop in ps && forall x :: x in Below(Parents(ps), depth, stop) ==> x in Reached(ps, depth, p, stop)
    decreases Below(Parents(ps), depth, p), |ps[p].children| + 1
  {
    if p == stop {
      ReachedMembers(ps, depth, p, stop);
    } else {
      ReachesStopOf(ps, depth, p, ps[p].children, stop);
    }
  }

  lemma {:induction false} ReachesStopOf(ps: Procs, depth: Depths, p: int, l: seq<int>, stop: int)
    requires Tree(ps, depth) && p in ps && (forall c :: c in l ==> c in ps[p].children)
    requires stop in ReachedOf(ps, depth, p, l, stop)
    ensures stop in ps && forall x :: x in Below(Parents(ps), depth, stop) ==> x in ReachedOf(ps, depth, p, l, stop)
    decreases Below(Parents(ps), depth, p), |l|
  {
    if l != [] {
      BelowChild(ps, depth, p, l[0]);
      ChildOf(ps, depth, p, l[0]);
      if stop in Reached(ps, depth, l[0], stop) {
        ReachesStop(ps, depth, l[0], stop);
      } else {
        ReachesStopOf(ps, depth, p, l[1..], stop);
      }
    }
  }

  /** So are those between the target and the active process. */
  lemma {:induction false} ReachesPath(ps: Procs, depth: Depths, p: int, x: int, stop: int)
    requires Tree(ps, depth) && p in ps && x in Below(Parents(ps), depth, p) && stop in Below(Parents(ps), depth, x)
    ensures x in Reached(ps, depth, p, stop)
    decreases Below(Parents(ps), depth, p), |ps[p].children| + 1
  {
    if x != p {
      var c := UnderChild(ps, depth, p, x);
      ReachesPathOf(ps, depth, p, ps[p].children, c, x, stop);
    }
  }

  lemma {:induction false} ReachesPathOf(ps: Procs, depth: Depths, p: int, l: seq<int>, c: int, x: int, stop: int)
    requires Tree(ps, depth) && p in ps && (forall i :: i in l ==> i in ps[p].children) && c in l && c in ps
    requires x in Below(Parents(ps), depth, c) && stop in Below(Parents(ps), depth, x)
    ensures x in ReachedOf(ps, depth, p, l, stop)
    decreases Below(Parents(ps), depth, p), |l|
  {
    var first := l[0];
    BelowChild(ps, depth, p, first);
    ChildOf(ps, depth, p, first);
    if first == c {
      ReachesPath(ps, depth, c, x, stop);
    } else {
      OneChildAbove(ps, depth, p, first, c, x, stop);
      ReachedBelow(ps, depth, first, stop);
      assert l == [first] + l[1..];
      ReachesPathOf(ps, depth, p, l[1..], c, x, stop);
    }
  }

  lemma OneChildAbove(ps: Procs, depth: Depths, p: int, b: int, c: int, x: int, y: int)
    requires Tree(ps, depth) && p in ps && b in ps[p].children && c in ps[p].children && b != c
    requires x in Below(Parents(ps), depth, c) && y in Below(Parents(ps), depth, x)
    ensures y !in Below(Parents(ps), depth, b)
  {
    var par := Parents(ps);
    ChildOf(ps, depth, p, b);
    ChildOf(ps, depth, p, c);
    AncestorTrans(par, depth, y, x, c);
    if y in Below(par, depth, b) {
      AncestorsInLine(par, depth, y, b, c);
      StepUp(ps, depth, b, c);
      StepUp(ps, depth, c, b);
      BelowChild(ps, depth, p, b);
      BelowChild(ps, depth, p, c);
    }
  }

  /** Who is reached, and is not the target, has a parent that is reached. */
  lemma {:induction false} ReachedUp(ps: Procs, depth: Depths, p: int, stop: int, x: int)
    requires Tree(ps, depth) && p in ps && x in Reached(ps, depth, p, stop) && x != p
    ensures x in ps && ps[x].parent in Reached(ps, depth, p, stop)
    decreases Below(Parents(ps), depth, p), |ps[p].children| + 1
  {
    ReachedOfUp(ps, depth, p, ps[p].children, stop, x);
  }

  lemma {:induction false} ReachedOfUp(ps: Procs, depth: Depths, p: int, l: seq<int>, stop: int, x: int)
    requires Tree(ps, depth) && p in ps && (forall c :: c in l ==> c in ps[p].children)
    requires x in ReachedOf(ps, depth, p, l, stop)
    ensures x in ps && (ps[x].parent == p || ps[x].parent in ReachedOf(ps, depth, p, l, stop))
    decreases Below(Parents(ps), depth, p), |l|
  {
    var c := l[0];
    BelowChild(ps, depth, p, c);
    ChildOf(ps, depth, p, c);
    if x in Reached(ps, depth, c, stop) {
      if x != c {
        ReachedUp(ps, depth, c, stop, x);
      }
    } else {
      ReachedOfUp(ps, depth, p, l[1..], stop, x);
    }
  }

  // ----- changes elsewhere do not matter -----

  /** A set of processes that is closed under children and whose children are the same in both trees. */
  ghost predicate SameBelow(ps: Procs, ps': Procs, k: set<int>) {
    forall x ::
        x in k ==> x in ps && x in ps' && ps'[x].children == ps[x].children && forall c :: c in ps[x].children ==>
        c in k
  }

  lemma {:induction false} ReachedSame(ps: Procs, ps': Procs, depth: Depths, depth': Depths, k: set<int>, p: int,
      stop: int)
    requires Tree(ps, depth) && Tree(ps', depth') && SameBelow(ps, ps', k) && p in k
    ensures Reached(ps', depth', p, stop) == Reached(ps, depth, p, stop)
    decreases Below(Parents(ps), depth, p), |ps[p].children| + 1
  {
    ReachedOfSame(ps, ps', depth, depth', k, p, ps[p].children, stop);
  }

  lemma {:induction false} ReachedOfSame(ps: Procs, ps': Procs, depth: Depths, depth': Depths, k: set<int>, p: int,
      l: seq<int>, stop: int)
    requires Tree(ps, depth) && Tree(ps', depth') && SameBelow(ps, ps', k) && p in ps && p in ps'
    requires forall c :: c in l ==> c in ps[p].children && c in ps'[p].children && c in k
    ensures ReachedOf(ps', depth', p, l, stop) == ReachedOf(ps, depth, p, l, stop)
    decreases Below(Parents(ps), depth, p), |l|
  {
    if l != [] {
      BelowChild(ps, depth, p, l[0]);
      ReachedSame(ps, ps', depth, depth', k, l[0], stop);
      ReachedOfSame(ps, ps', depth, depth', k, p, l[1..], stop);
    }
  }

  lemma {:induction false} SleepersSame(ps: Procs, ps': Procs, l: seq<int>)
    requires forall x :: x in l ==> x in ps && x in ps' && ps'[x].state == ps[x].state
    ensures SleepersOf(ps', l) == SleepersOf(ps, l)
  {
    if l != [] {
      var first := l[0];
      assert first in l && l == [first] + l[1..];
      SleepersSame(ps, ps', l[1..]);
    }
  }

  lemma {:induction false} SleepersJoin(ps: Procs, a: seq<int>, b: seq<int>)
    ensures SleepersOf(ps, a + b) == SleepersOf(ps, a) + SleepersOf(ps, b)
  {
    if a == [] {
      assert a + b == b;
    } else {
      assert (a + b)[1..] == a[1..] + b;
      SleepersJoin(ps, a[1..], b);
    }
  }

  lemma {:induction false} SleepersMembers(ps: Procs, l: seq<int>)
    ensures forall x :: x in SleepersOf(ps, l) <==> x in l && x in ps && ps[x].state.WaitTime?
  {
    if l != [] {
      SleepersMembers(ps, l[1..]);
      assert l == [l[0]] + l[1..];
    }
  }
}
