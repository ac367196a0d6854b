/** Words, powers of two, and products and quotients one at a time. */
module Integers {

  /** How many values a word of 32 bits has. */
  const WORD := 0x1_0000_0000

  function Exp2(k: nat): (r: nat)
    ensures r >= 1
  {
    if k == 0 then 1 else 2 * Exp2(k - 1)
  }

  lemma {:induction false} Exp2Monotone(a: nat, b: nat)
    requires a <= b
    ensures Exp2(a) <= Exp2(b)
    decreases b
  {
    if a < b { Exp2Monotone(a, b - 1); }
  }

  /** Position of the highest set bit (the bsr instruction). */
  function HighBit(n: nat): (k: nat)
    requires n > 0
    ensures Exp2(k) <= n < Exp2(k + 1)
  {
    if n == 1 then 0 else HighBit(n / 2) + 1
  }

  lemma MulLe(a: int, b: int, c: nat)
    requires a <= b
    ensures a * c <= b * c && c * a <= c * b
  {
  }

  lemma MulLtCancel(a: int, b: int, c: nat)
    requires a * c < b * c
    ensures a < b
  {
    if b <= a { MulLe(b, a, c); }
  }

  lemma AtLeastOnce(d: int, y: int)
    requires y >= 0
    ensures d > 0 ==> d * y >= y
    ensures d < 0 ==> d * y <= -y
  {
  }

  lemma DivUnique(x: nat, y: nat, q: nat, r: nat)
    requires x == q * y + r && r < y
    ensures x / y == q && x % y == r
  {
    var p := x / y;
    assert x == p * y + x % y;
    assert (p - q) * y == p * y - q * y;
    AtLeastOnce(p - q, y);
  }
}
