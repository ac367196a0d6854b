/** The dining philosophers: a monitor of fork flags and blocked flags, and a private semaphore for each philosopher. */
module Philosophers {

  /** Where a philosopher is: thinking, between asking for the forks and getting through its semaphore, or eating. */
  datatype Phase = Thinking | Waiting | Eating

  /** The table as a value. */
  datatype Table = Table(n: nat, f: seq<bool>, blocked: seq<bool>, s: seq<nat>, phase: seq<Phase>)

  function Right(i: nat, n: nat): nat { if i + 1 == n then 0 else i + 1 }

  function Left(i: nat, n: nat): int { if i == 0 then n - 1 else i - 1 }

  lemma Neighbours(i: nat, n: nat)
    requires i < n && n >= 3
    ensures (i + 1) % n == Right(i, n) && (i + n - 1) % n == Left(i, n) && (i + 2) % n == Right(Right(i, n), n)
    ensures 0 <= Left(i, n) < n && Right(i, n) < n && Left(i, n) != i && Right(i, n) != i && Left(i, n) != Right(i, n)
    ensures Right(Left(i, n), n) == i && Left(Right(i, n), n) == i
  {
    Wrap(i + 1, n);
    Wrap(i + n - 1, n);
    Wrap(i + 2, n);
  }

  lemma Wrap(x: nat, n: nat)
    requires 0 < n && x < 2 * n
    ensures x % n == if x < n then x else x - n
  {
  }

  ghost predicate Shaped(t: Table) {
    t.n >= 3 && |t.f| == |t.blocked| == |t.s| == |t.phase| == t.n
  }

  /** The philosopher has both forks: it eats, or it may go through its semaphore. */
  ghost predicate Has(t: Table, i: nat)
    requires Shaped(t) && i < t.n
  {
    t.phase[i] == Eating || (t.phase[i] == Waiting && !t.blocked[i])
  }

  /** Fork i is between philosopher i and the one on its left: at most one of them has it, and the flag says whether
      one has. */
  ghost predicate ForkOk(t: Table, i: nat)
    requires Shaped(t) && i < t.n
  {
    && (t.f[i] <==> Has(t, i) || Has(t, Left(i, t.n)))
    && !(Has(t, i) && Has(t, Left(i, t.n)))
  }

  /** A philosopher is blocked only while it waits and one of its forks is taken; its semaphore is up exactly when it
      may go on. */
  ghost predicate SeatOk(t: Table, i: nat)
    requires Shaped(t) && i < t.n
  {
    && (t.blocked[i] ==> t.phase[i] == Waiting && (t.f[i] || t.f[Right(i, t.n)]))
    && t.s[i] == if t.phase[i] == Waiting && !t.blocked[i] then 1 else 0
  }

  ghost predicate Sound(t: Table) {
    && Shaped(t)
    && (forall i :: 0 <= i < t.n ==> ForkOk(t, i))
    && (forall i :: 0 <= i < t.n ==> SeatOk(t, i))
  }

  // ----- what a sound table promises -----

  /** No two neighbours eat at the same time. */
  lemma NeighboursTakeTurns(t: Table, i: nat)
    requires Sound(t) && i < t.n
    ensures !(t.phase[i] == Eating && t.phase[Right(i, t.n)] == Eating)
    ensures t.phase[i] == Eating ==> t.f[i] && t.f[Right(i, t.n)]
  {
    Neighbours(i, t.n);
    assert ForkOk(t, i) && ForkOk(t, Right(i, t.n));
  }

  /** A blocked philosopher has a neighbour that has a fork it needs and is not blocked itself: its turn will come. */
  lemma NoLostWakeUp(t: Table, i: nat)
    requires Sound(t) && i < t.n && t.blocked[i]
    ensures var l, r := Left(i, t.n), Right(i, t.n);
            0 <= l < t.n && ((t.f[i] && Has(t, l) && !t.blocked[l]) || (t.f[r] && Has(t, r) && !t.blocked[r]))
  {
    Neighbours(i, t.n);
    assert SeatOk(t, i) && ForkOk(t, i) && ForkOk(t, Right(i, t.n)) && SeatOk(t, Right(i, t.n))
        && SeatOk(t, Left(i, t.n));
  }

  /** Not all philosophers are ever blocked, and private semaphores never exceed one. */
  lemma NeverAllBlocked(t: Table)
    requires Sound(t)
    ensures exists i :: 0 <= i < t.n && !t.blocked[i]
    ensures forall i :: 0 <= i < t.n ==> t.s[i] <= 1
  {
    forall i | 0 <= i < t.n
      ensures t.s[i] <= 1
    {
      assert SeatOk(t, i);
    }
    if t.blocked[0] {
      NoLostWakeUp(t, 0);
    }
  }

  // ----- the monitor -----

  class Monitor {
    const n: nat
    const f: array<bool>
    const blocked: array<bool>
    const s: array<nat>
    const phase: array<Phase>

    ghost predicate Arrays() {
      f != blocked && f.Length == n && blocked.Length == n && s.Length == n && phase.Length == n && n >= 3
    }

    ghost function T(): Table
      reads f, blocked, s, phase
    {
      Table(n, f[..], blocked[..], s[..], phase[..])
    }

    ghost predicate Valid()
      reads f, blocked, s, phase
    {
      Arrays() && Sound(T())
    }

    /** test20: all forks are on the table, nobody waits. */
    constructor (n: nat)
      requires n >= 3
      ensures Valid() && this.n == n && fresh(f) && fresh(blocked) && fresh(s) && fresh(phase)
    {
      this.n := n;
      f := new bool[n](_ => false);
      blocked := new bool[n](_ => false);
      s := new nat[n](_ => 0);
      phase := new Phase[n](_ => Thinking);
      new;
      forall i | 0 <= i < n
        ensures ForkOk(T(), i) && SeatOk(T(), i)
      {
        Neighbours(i, n);
      }
    }

    /** Both forks of a philosopher are on the table. */
    predicate Test(i: nat)
      requires Arrays() && i < n
      reads f
    {
      !f[i] && !f[(i + 1) % n]
    }

    /** prendre_fourchettes, inside the mutex: take both forks, or be blocked. */
    method Take(i: nat)
      requires Valid() && i < n && phase[i] == Thinking
      modifies f, blocked, s, phase
      ensures Valid() && phase[..] == old(phase[..])[i := Waiting]
      ensures blocked[i] <==> old(f[i] || f[Right(i, n)])
      ensures forall j :: 0 <= j < n && j != i ==> blocked[j] == old(blocked[j])
    {
      ghost var t := T();
      Neighbours(i, n);
      assert SeatOk(t, i);
      if Test(i) {
        f[i] := true;
        f[(i + 1) % n] := true;
        s[i] := s[i] + 1;
      } else {
        blocked[i] := true;
      }
      phase[i] := Waiting;
      Taken(t, T(), i);
    }

    /** xwait on the private semaphore: it passes only when the semaphore is up. */
    method Sit(i: nat)
      requires Valid() && i < n && phase[i] == Waiting && s[i] > 0
      modifies s, phase
      ensures Valid() && phase[..] == old(phase[..])[i := Eating]
    {
      ghost var t := T();
      s[i] := s[i] - 1;
      phase[i] := Eating;
      Seated(t, T(), i);
    }

    /** poser_fourchettes: each fork goes to the neighbour that waits for it and can have its other one, else on the
        table. */
    method Put(i: nat)
      requires Valid() && i < n && phase[i] == Eating
      modifies f, blocked, s, phase
      ensures Valid() && phase[..] == old(phase[..])[i := Thinking]
      ensures forall j :: 0 <= j < n && j != Left(i, n) && j != Right(i, n) ==> blocked[j] == old(blocked[j])
    {
      ghost var t := T();
      Neighbours(i, n);
      var left := HandBack((i + n - 1) % n, (i + n - 1) % n, i);
      var right := HandBack((i + 1) % n, (i + 2) % n, (i + 1) % n);
      phase[i] := Thinking;
      HandedBack(t, T(), i, left, right);
      Returned(t, T(), i, left, right);
      EatsUnblocked(t, i);
    }

    /** One fork: its neighbour gets it if that one is blocked and its other fork is free; else it goes on the table. */
    method HandBack(neighbour: nat, other: nat, own: nat) returns (given: bool)
      requires Arrays() && neighbour < n && other < n && own < n
      modifies f, blocked, s
      ensures given <==> old(blocked[neighbour]) && !old(f[other])
      ensures f[..] == if given then old(f[..])[other := true] else old(f[..])[own := false]
      ensures blocked[..] == if given then old(blocked[..])[neighbour := false] else old(blocked[..])
      ensures s[..] == if given then old(s[..])[neighbour := old(s[neighbour]) + 1] else old(s[..])
    {
      given := blocked[neighbour] && !f[other];
      if given {
        f[other] := true;
        blocked[neighbour] := false;
        s[neighbour] := s[neighbour] + 1;
      } else {
        f[own] := false;
      }
    }
  }

  lemma EatsUnblocked(t: Table, i: nat)
    requires Sound(t) && i < t.n
    ensures t.phase[i] == Eating ==> !t.blocked[i]
  {
    assert SeatOk(t, i);
  }

  /** The two halves of putting the forks back, together. */
  lemma HandedBack(t: Table, u: Table, i: nat, left: bool, right: bool)
    requires Sound(t) && Shaped(u) && i < t.n && u.n == t.n && t.phase[i] == Eating
    requires var l, r := Left(i, t.n), Right(i, t.n); var rr := Right(r, t.n);
             && 0 <= l < t.n && r < t.n && rr < t.n && (left <==> t.blocked[l] && !t.f[l])
             && u.phase == t.phase[i := Thinking]
             && var f1 := if left then t.f[l := true] else t.f[i := false];
                var b1 := if left then t.blocked[l := false] else t.blocked;
                var s1 := if left then t.s[l := t.s[l] + 1] else t.s;
                && (right <==> b1[r] && !f1[rr])
                && u.f == (if right then f1[rr := true] else f1[r := false])
                && u.blocked == (if right then b1[r := false] else b1)
                && u.s == (if right then s1[r := s1[r] + 1] else s1)
    ensures Served(t, u, i, left, right)
    ensures var l, r := Left(i, t.n), Right(i, t.n); right <==>
        t.blocked[r] && !t.f[Right(r, t.n)] && !(left && Right(r, t.n) == l)
  {
    Neighbours(i, t.n);
    var l, r := Left(i, t.n), Right(i, t.n);
    Neighbours(r, t.n);
    assert ForkOk(t, i) && ForkOk(t, r);
    assert t.f[i] && t.f[r];
  }

  // ----- each step keeps the table sound -----

  lemma Taken(t: Table, u: Table, i: nat)
    requires Sound(t) && i < t.n && t.phase[i] == Thinking && Shaped(u) && u.n == t.n
    requires u.phase == t.phase[i := Waiting]
    requires var r := Right(i, t.n);
             if !t.f[i] && !t.f[r] then u.f == t.f[i := true][r := true] && u.s == t.s[i := t.s[i] + 1]
                 && u.blocked == t.blocked
             else u.f == t.f && u.s == t.s && u.blocked == t.blocked[i := true]
    ensures Sound(u)
  {
    forall j | 0 <= j < u.n
      ensures ForkOk(u, j) && SeatOk(u, j)
    {
      Neighbours(j, t.n);
      Neighbours(i, t.n);
      assert ForkOk(t, j) && SeatOk(t, j) && SeatOk(t, i) && ForkOk(t, i) && ForkOk(t, Right(i, t.n));
    }
  }

  lemma Seated(t: Table, u: Table, i: nat)
    requires Sound(t) && i < t.n && t.phase[i] == Waiting && t.s[i] > 0 && Shaped(u) && u.n == t.n
    requires u == t.(phase := t.phase[i := Eating], s := t.s[i := t.s[i] - 1])
    ensures Sound(u)
  {
    forall j | 0 <= j < u.n
      ensures ForkOk(u, j) && SeatOk(u, j)
    {
      Neighbours(j, t.n);
      assert ForkOk(t, j) && SeatOk(t, j) && SeatOk(t, i);
    }
  }

  /** The table after a philosopher put its forks back and served its left and right neighbours, or not, seat by
      seat. */
  ghost predicate Served(t: Table, u: Table, i: nat, left: bool, right: bool)
    requires Shaped(t) && Shaped(u) && i < t.n && u.n == t.n
  {
    var l, r := Left(i, t.n), Right(i, t.n);
    forall j :: 0 <= j < t.n ==>
      && u.phase[j] == (if j == i then Thinking else t.phase[j])
      && u.blocked[j] == (if (left && j == l) || (right && j == r) then false else t.blocked[j])
      && u.s[j] == (if (left && j == l) || (right && j == r) then t.s[j] + 1 else t.s[j])
      && u.f[j] == (if j == i then left else if j == r then right
                    else t.f[j] || (left && j == l) || (right && j == Right(r, t.n)))
  }

  lemma Returned(t: Table, u: Table, i: nat, left: bool, right: bool)
    requires Sound(t) && Shaped(u) && i < t.n && u.n == t.n && t.phase[i] == Eating
    requires 0 <= Left(i, t.n) < t.n && Right(i, t.n) < t.n && Right(Right(i, t.n), t.n) < t.n
    requires left <==> t.blocked[Left(i, t.n)] && !t.f[Left(i, t.n)]
    requires right <==>
        t.blocked[Right(i, t.n)] && !t.f[Right(Right(i, t.n), t.n)]
        && !(left && Right(Right(i, t.n), t.n) == Left(i, t.n))
    requires Served(t, u, i, left, right)
    ensures Sound(u)
  {
    Neighbours(i, t.n);
    var l, r := Left(i, t.n), Right(i, t.n);
    Neighbours(r, t.n);
    Neighbours(l, t.n);
    AroundEater(t, i);
    HasChanged(t, u, i, left, right);
    hide Has, Served, HasAfter, ForkOk, SeatOk;
    forall j | 0 <= j < u.n
      ensures ForkOk(u, j) && SeatOk(u, j)
    {
      Neighbours(j, t.n);
      assert ForkOk(t, j) && SeatOk(t, j);
      ReturnedFork(t, u, i, left, right, j);
      ReturnedSeat(t, u, i, left, right, j);
    }
  }

  lemma AroundEater(t: Table, i: nat)
    requires Sound(t) && i < t.n && t.phase[i] == Eating && 0 <= Left(i, t.n) < t.n && Right(i, t.n) < t.n
    ensures !Has(t, Left(i, t.n)) && !Has(t, Right(i, t.n))
  {
    Neighbours(i, t.n);
    assert ForkOk(t, i) && ForkOk(t, Right(i, t.n));
  }

  lemma HasChanged(t: Table, u: Table, i: nat, left: bool, right: bool)
    requires Sound(t) && Shaped(u) && i < t.n && u.n == t.n && t.phase[i] == Eating && Served(t, u, i, left, right)
    requires 0 <= Left(i, t.n) < t.n && Right(i, t.n) < t.n && Left(i, t.n) != i && Right(i, t.n) != i
    requires (left ==> t.blocked[Left(i, t.n)]) && (right ==> t.blocked[Right(i, t.n)])
    ensures HasAfter(t, u, i, left, right)
  {
    AroundEater(t, i);
    assert SeatOk(t, Left(i, t.n)) && SeatOk(t, Right(i, t.n));
  }

  /** Who has what after the forks were returned. */
  ghost predicate HasAfter(t: Table, u: Table, i: nat, left: bool, right: bool)
    requires Shaped(t) && Shaped(u) && i < t.n && u.n == t.n
  {
    forall j :: 0 <= j < u.n ==>
      Has(u, j) == if j == i then false else if j == Left(i, t.n) then left else if j == Right(i, t.n) then right
          else Has(t, j)
  }

  lemma ReturnedFork(t: Table, u: Table, i: nat, left: bool, right: bool, j: nat)
    requires Shaped(t) && Shaped(u) && i < t.n && u.n == t.n && j < t.n && 0 <= Left(j, t.n) < t.n
    requires ForkOk(t, j) && Served(t, u, i, left, right) && HasAfter(t, u, i, left, right)
    requires var l, r := Left(i, t.n), Right(i, t.n); var rr := Right(r, t.n);
             && 0 <= l < t.n && r < t.n && rr < t.n && l != r && l != i && r != i && rr != i && rr != r
             && Left(r, t.n) == i && Left(rr, t.n) == r
             && (Left(j, t.n) == i ==> j == r) && (Left(j, t.n) == l ==> j == i) && (Left(j, t.n) == r ==> j == rr)
             && !Has(t, l) && !Has(t, r) && (left ==> !t.f[l]) && (right ==> !t.f[rr] && !(left && rr == l))
    ensures ForkOk(u, j)
  {
  }

  lemma ReturnedSeat(t: Table, u: Table, i: nat, left: bool, right: bool, j: nat)
    requires Shaped(t) && Shaped(u) && i < t.n && u.n == t.n && j < t.n && t.phase[i] == Eating && Right(j, t.n) < t.n
    requires SeatOk(t, j) && Served(t, u, i, left, right)
    requires var l, r := Left(i, t.n), Right(i, t.n); var rr := Right(r, t.n);
             && 0 <= l < t.n && r < t.n && rr < t.n && l != r && l != i && r != i && rr != i && rr != r
             && (Right(j, t.n) == i ==> j == l) && (Right(j, t.n) == r ==> j == i)
             && (left <==> t.blocked[l] && !t.f[l]) && (right <==> t.blocked[r] && !t.f[rr] && !(left && rr == l))
    ensures SeatOk(u, j)
  {
  }
}
