/** Blocks of power-of-two size at addresses that are multiples of their size, and their buddies. */
module Dyadic {
  import opened Integers

  ghost predicate Aligned(p: int, k: nat) { exists m: int :: Multiple(p, m, k) }

  ghost predicate Multiple(p: int, m: int, k: nat) { p == m * Exp2(k) }

  function Xor(a: nat, b: nat): nat
    decreases a + b
  {
    if a == 0 && b == 0 then 0
    else (if a % 2 != b % 2 then 1 else 0) + 2 * Xor(a / 2, b / 2)
  }

  lemma {:induction false} XorZero(a: nat)
    ensures Xor(a, 0) == a
  {
    if a > 0 { XorZero(a / 2); }
  }

  /** Address of the buddy, as the code computes it. */
  function Buddy(p: nat, k: nat): nat { Xor(p, Exp2(k)) }

  lemma XorDouble(x: nat, h: nat)
    ensures Xor(2 * x, 2 * h) == 2 * Xor(x, h)
  {
    assert (2 * x) % 2 == 0 && (2 * h) % 2 == 0 && (2 * x) / 2 == x && (2 * h) / 2 == h;
  }

  function Flip(m: int): int { if m % 2 == 0 then m + 1 else m - 1 }

  /** For a multiple of the size, flipping the size bit moves by one size, up from even multiples and down from odd
      ones. */
  lemma {:induction false} BuddyOfMultiple(m: nat, k: nat, p: nat)
    requires p == m * Exp2(k)
    ensures Buddy(p, k) == Flip(m) * Exp2(k)
  {
    if k == 0 {
      XorZero(m / 2);
    } else {
      var h := Exp2(k - 1);
      DoubleMul(m, h);
      DoubleMul(Flip(m), h);
      MulNonNeg(m, h);
      var x := m * h;
      BuddyOfMultiple(m, k - 1, x);
      XorDouble(x, h);
      assert p == 2 * x && Exp2(k) == 2 * h;
    }
  }

  lemma MulNonNeg(m: int, e: nat)
    ensures m >= 0 ==> m * e >= 0
    ensures m < 0 && e > 0 ==> m * e < 0
  {
  }

  /** The lower of two buddies, where their merged block starts. */
  function Parent(p: int, b: int): int { if b < p then b else p }

  lemma Quotient(p: int, k: nat) returns (m: int)
    requires Aligned(p, k)
    ensures p == m * Exp2(k) && (p >= 0 ==> m >= 0)
  {
    m :| Multiple(p, m, k);
    MulNonNeg(m, Exp2(k));
  }

  lemma FlipFacts(m: nat, e: nat)
    ensures Flip(m) >= 0 && Flip(Flip(m)) == m
    ensures m % 2 == 0 ==> Flip(m) * e == m * e + e
    ensures m % 2 == 1 ==> Flip(m) * e == m * e - e
    ensures Parent(m, Flip(m)) == 2 * (m / 2) && Parent(m, Flip(m)) * e == (m / 2) * (2 * e)
  {
    assert (m + 1) * e == m * e + e && (m - 1) * e == m * e - e;
    DoubleMul(m / 2, e);
  }

  /** Buddies of order k are the two halves of one aligned block of order k + 1. */
  lemma BuddyFacts(p: nat, k: nat)
    requires Aligned(p, k)
    ensures var b := Buddy(p, k);
            && Aligned(b, k) && Buddy(b, k) == p && (b == p + Exp2(k) || b == p - Exp2(k))
            && Aligned(Parent(p, b), k + 1)
  {
    var m := Quotient(p, k);
    var e := Exp2(k);
    BuddyOfMultiple(m, k, p);
    FlipFacts(m, e);
    MulNonNeg(Flip(m), e);
    BuddyOfMultiple(Flip(m), k, Flip(m) * e);
    assert Multiple(Buddy(p, k), Flip(m), k);
    assert Multiple(Parent(p, Buddy(p, k)), m / 2, k + 1);
  }

  lemma {:induction false} XorDiffers(a: nat, b: nat)
    requires b > 0
    ensures Xor(a, b) != a
    decreases a + b
  {
    if b / 2 > 0 {
      XorDiffers(a / 2, b / 2);
    } else {
      assert b == 1;
      XorZero(a / 2);
    }
  }

  lemma BuddyDiffers(p: nat, k: nat)
    ensures Buddy(p, k) != p
  {
    XorDiffers(p, Exp2(k));
  }

  lemma DoubleMul(x: int, e: int)
    ensures (2 * x) * e == x * (2 * e) == 2 * (x * e)
  {
  }

  lemma HalvesAligned(p: int, k: nat)
    requires Aligned(p, k + 1)
    ensures Aligned(p, k) && Aligned(p + Exp2(k), k)
    ensures p >= 0 ==> Buddy(p, k) == p + Exp2(k)
  {
    var m := TwiceQuotient(p, k);
    LowHalf(p, m, k);
    HighHalf(p, m, k);
    if p >= 0 {
      MulNonNeg(2 * m, Exp2(k));
      EvenBuddy(p, 2 * m, k);
    }
  }

  lemma TwiceQuotient(p: int, k: nat) returns (m: int)
    requires Aligned(p, k + 1)
    ensures Multiple(p, 2 * m, k)
  {
    m := Quotient(p, k + 1);
    HalvesArith(p, m, Exp2(k));
  }

  lemma LowHalf(p: int, m: int, k: nat)
    requires Multiple(p, 2 * m, k)
    ensures Aligned(p, k)
  {
  }

  lemma HighHalf(p: int, m: int, k: nat)
    requires Multiple(p, 2 * m, k)
    ensures Aligned(p + Exp2(k), k)
  {
    NextMultiple(2 * m, Exp2(k));
    assert Multiple(p + Exp2(k), 2 * m + 1, k);
  }

  lemma EvenBuddy(p: nat, n: nat, k: nat)
    requires n % 2 == 0 && p == n * Exp2(k)
    ensures Buddy(p, k) == p + Exp2(k)
  {
    BuddyOfMultiple(n, k, p);
    NextMultiple(n, Exp2(k));
  }

  lemma HalvesArith(p: int, m: int, e: nat)
    requires p == m * (2 * e)
    ensures p == (2 * m) * e && p + e == (2 * m + 1) * e
  {
    DoubleMul(m, e);
    NextMultiple(2 * m, e);
  }

  lemma NextMultiple(m: int, e: nat)
    ensures (m + 1) * e == m * e + e
  {
  }

  lemma {:induction false} AlignedCoarser(p: int, i: nat, j: nat)
    requires Aligned(p, j) && i <= j
    ensures Aligned(p, i)
    decreases j
  {
    if i < j {
      HalvesAligned(p, j - 1);
      AlignedCoarser(p, i, j - 1);
    }
  }

  /** Two multiples of one size that differ are at least that size apart. */
  lemma AlignedGap(p: int, q: int, k: nat)
    requires Aligned(p, k) && Aligned(q, k) && p < q
    ensures p + Exp2(k) <= q
  {
    var m := Quotient(p, k);
    var n := Quotient(q, k);
    var e := Exp2(k);
    MulLtCancel(m, n, e);
    MulLe(m + 1, n, e);
    NextMultiple(m, e);
  }

  /** A dyadic block that starts inside a larger or equal one lies inside it. */
  lemma Nested(p: int, i: nat, q: int, j: nat)
    requires Aligned(p, i) && Aligned(q, j) && i <= j && q <= p < q + Exp2(j)
    ensures p + Exp2(i) <= q + Exp2(j)
  {
    AlignedCoarser(q, i, j);
    AlignedNext(q, i, j);
    AlignedGap(p, q + Exp2(j), i);
  }

  lemma AlignedNext(q: int, i: nat, j: nat)
    requires Aligned(q, j) && i <= j
    ensures Aligned(q + Exp2(j), i)
  {
    var n := Quotient(q, j);
    NextMultiple(n, Exp2(j));
    assert Multiple(q + Exp2(j), n + 1, j);
    AlignedCoarser(q + Exp2(j), i, j);
  }

  /** The buddy of a block strictly inside an aligned block is in it too, and so is their parent. */
  lemma BuddyInside(p: nat, k: nat, b: int, e: nat)
    requires Aligned(p, k) && Aligned(b, e) && k < e && b <= p < b + Exp2(e)
    ensures var q := Buddy(p, k);
            && b <= q && q + Exp2(k) <= b + Exp2(e)
            && b <= Parent(p, q) && Parent(p, q) + Exp2(k + 1) <= b + Exp2(e)
  {
    BuddyFacts(p, k);
    var par := Parent(p, Buddy(p, k));
    AlignedCoarser(b, k + 1, e);
    if par < b {
      AlignedGap(par, b, k + 1);
    }
    Nested(par, k + 1, b, e);
  }

  /** The order of a request: least k with size <= 2**k. */
  ghost predicate LeastOrder(size: nat, k: nat) { size <= Exp2(k) && (k > 0 ==> Exp2(k - 1) < size) }

  lemma LeastOrderUnique(size: nat, j: nat, k: nat)
    requires LeastOrder(size, j) && LeastOrder(size, k)
    ensures j == k
  {
    if j < k {
      Exp2Monotone(j, k - 1);
    } else if k < j {
      Exp2Monotone(k, j - 1);
    }
  }

  lemma OrderBound(size: nat, k: nat, bound: nat)
    requires LeastOrder(size, k) && size <= Exp2(bound)
    ensures k <= bound
  {
    if k > bound { Exp2Monotone(bound, k - 1); }
  }

  /** What is left of x after p shifts. */
  ghost predicate Shifted(rest: nat, x: nat, p: nat) { rest * Exp2(p) <= x < (rest + 1) * Exp2(p) }

  lemma ShiftStep(rest: nat, x: nat, p: nat)
    requires Shifted(rest, x, p) && rest > 0
    ensures Shifted(rest / 2, x, p + 1) && Exp2(p) <= x
  {
    HalveBounds(rest, Exp2(p), x);
    MulLe(1, rest, Exp2(p));
  }

  lemma ShiftedOut(x: nat, p: nat)
    ensures Shifted(0, x, p) <==> x < Exp2(p)
  {
  }

  /** power2: bit length of size - 1. */
  method Power2(size: nat) returns (p: nat)
    requires size > 0
    ensures LeastOrder(size, p)
  {
    p := 0;
    var rest: nat := size - 1;
    while rest != 0
      invariant Shifted(rest, size - 1, p)
      invariant p > 0 ==> Exp2(p - 1) < size
    {
      ShiftStep(rest, size - 1, p);
      p := p + 1;
      rest := rest / 2;
    }
    ShiftedOut(size - 1, p);
    assert !(rest > Exp2(p));  // the final correction in the code never applies
  }

  lemma HalveBounds(r: nat, e: nat, x: nat)
    requires r * e <= x < (r + 1) * e
    ensures (r / 2) * (2 * e) <= x < (r / 2 + 1) * (2 * e)
  {
    var h := r / 2;
    DoubleMul(h, e);
    DoubleMul(h + 1, e);
    MulLe(2 * h, r, e);
    MulLe(r + 1, 2 * (h + 1), e);
  }
}
