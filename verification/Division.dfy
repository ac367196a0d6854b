/** Two ways to divide 64-bit numbers: estimate and correct, and shift and subtract. */
module Division {
  import opened Integers

  const W64 := 0x1_0000_0000_0000_0000

  /** divl: the processor faults when the quotient does not fit in a word. */
  datatype Quotient = Fault | Quotient(quot: nat, rem: nat)

  function Divl(hi: nat, lo: nat, d: nat): Quotient {
    if d == 0 || (hi * WORD + lo) / d >= WORD then Fault else Quotient((hi * WORD + lo) / d, (hi * WORD + lo) % d)
  }

  /** What both compute: division by zero gives quotient zero. */
  function Div(x: nat, y: nat): nat { if y == 0 then 0 else x / y }

  function Mod(x: nat, y: nat): nat { if y == 0 then x else x % y }

  /** The shift that brings a divisor of more than 32 bits down to 32 bits with the highest one set. */
  function Shift(y: nat): nat
    requires y >= WORD
  {
    HighBit(y / WORD) + 1
  }

  /** The divisor is at the very top of its binade, and the estimate would divide by 2**32. */
  predicate TooClose(y: nat) { y >= WORD && Quo(y, Exp2(Shift(y))) == WORD - 1 }

  // ----- arithmetic, one product at a time -----

  function Quo(x: nat, d: nat): nat
    requires d > 0
  {
    x / d
  }

  lemma QuoBounds(x: nat, d: nat)
    requires d > 0
    ensures Quo(x, d) * d <= x < Quo(x, d) * d + d
  {
    DivBounds(x, d);
  }

  lemma DivBounds(x: nat, d: nat)
    requires d > 0
    ensures (x / d) * d <= x < (x / d) * d + d
  {
    assert x == d * (x / d) + x % d;
  }

  lemma DivAtLeast(x: nat, d: nat, m: nat)
    requires d > 0 && m * d <= x
    ensures m <= x / d
  {
    DivBounds(x, d);
    assert (x / d + 1) * d == (x / d) * d + d;
    MulLtCancel(m, x / d + 1, d);
  }

  lemma DivBelow(x: nat, d: nat, m: nat)
    requires d > 0 && x < m * d
    ensures x / d < m
  {
    DivBounds(x, d);
    MulLtCancel(x / d, m, d);
  }

  lemma {:induction false} Exp2Product(a: nat, b: nat)
    ensures Exp2(a) * Exp2(b) == Exp2(a + b)
  {
    if a > 0 {
      Exp2Product(a - 1, b);
      assert Exp2(a) * Exp2(b) == 2 * (Exp2(a - 1) * Exp2(b));
    }
  }

  lemma Exp2Words()
    ensures Exp2(32) == WORD && Exp2(33) == 2 * WORD
  {
    assert Exp2(8) == 256;
    assert Exp2(16) == 65536;
    assert Exp2(24) == 0x100_0000;
  }

  // ----- estimate and correct -----

  /** The shift leaves a 32-bit divisor with the highest bit set. */
  lemma ShiftFacts(y: nat)
    requires WORD <= y < W64
    ensures var l, e := Shift(y), Exp2(Shift(y));
            1 <= l <= 32 && 2 <= e <= WORD && e * WORD <= 2 * y && WORD <= 2 * Quo(y, e) && Quo(y, e) < WORD
  {
    var l, e, y1 := Shift(y), Exp2(Shift(y)), y / WORD;
    Exp2Words();
    assert y1 < WORD;
    if l > 32 {
      Exp2Monotone(32, l - 1);
    }
    Exp2Monotone(l, 32);
    Exp2Monotone(1, l);
    DivBounds(y, WORD);
    assert Exp2(l - 1) * WORD <= y1 * WORD && y < (y1 + 1) * WORD <= e * WORD;
    DivAtLeast(y, e, WORD / 2);
    DivBelow(y, e, WORD);
  }

  /** The estimate fits in a word, is never too large, and at most two too small. */
  lemma EstimateFacts(x: nat, y: nat, e: nat, y0: nat, xs: nat, q0: nat)
    requires x < W64 && WORD <= y < W64 && e == Exp2(Shift(y)) && y0 == Quo(y, e) && xs == Quo(x, e)
    requires q0 == Quo(xs, y0 + 1)
    ensures q0 < WORD && q0 * y <= x && x - q0 * y < 3 * y
  {
    hide Quo;
    ShiftFacts(y);
    QuoBounds(xs, y0 + 1);
    QuoBounds(x, e);
    QuoBounds(y, e);
    var l := Shift(y);
    var g := Exp2(33 - l);
    Exp2Product(33 - l, l);
    Exp2Words();
    EstimateBounds(x, y, e, y0, xs, q0, g);
  }

  lemma EstimateBounds(x: nat, y: nat, e: nat, y0: nat, xs: nat, q0: nat, g: nat)
    requires x < W64 && g * e == 2 * WORD && e >= 2 && WORD <= 2 * y0 && e * WORD <= 2 * y
    requires q0 * (y0 + 1) <= xs < q0 * (y0 + 1) + (y0 + 1) && xs * e <= x < xs * e + e && y0 * e <= y < y0 * e + e
    ensures q0 < WORD && q0 * y <= x && x - q0 * y < 3 * y
  {
    EstimateSmall(x, xs, y0, e, g, q0);
    EstimateLow(x, xs, y, y0, e, q0);
    EstimateClose(x, xs, y, y0, e, g, q0);
  }

  lemma EstimateSmall(x: nat, xs: nat, y0: nat, e: nat, g: nat, q0: nat)
    requires x < W64 && g * e == 2 * WORD && WORD <= 2 * y0 && xs * e <= x && q0 * (y0 + 1) <= xs && e >= 2
    ensures q0 < g && q0 < WORD
  {
    if q0 >= g {
      MulLe(g, q0, y0 + 1);
      MulLe(g * (y0 + 1), xs, e);
      TwoProducts(g, y0 + 1, e);
      MulLe(WORD / 2, y0 + 1, g * e);
    }
    if g > WORD {
      MulLe(WORD + 1, g, e);
    }
  }

  lemma TwoProducts(a: nat, b: nat, c: nat)
    ensures (a * b) * c == (a * c) * b
  {
  }

  lemma EstimateLow(x: nat, xs: nat, y: nat, y0: nat, e: nat, q0: nat)
    requires xs * e <= x && q0 * (y0 + 1) <= xs && y < y0 * e + e
    ensures q0 * y <= x
  {
    MulLe(y, (y0 + 1) * e, q0);
    MulLe(q0 * (y0 + 1), xs, e);
    TwoProducts(q0, y0 + 1, e);
    TwoProducts(q0, e, y0 + 1);
    assert q0 * ((y0 + 1) * e) == (q0 * (y0 + 1)) * e;
  }

  lemma EstimateClose(x: nat, xs: nat, y: nat, y0: nat, e: nat, g: nat, q0: nat)
    requires g * e == 2 * WORD && e >= 2 && q0 < g && x < xs * e + e && xs < q0 * (y0 + 1) + (y0 + 1) && y0 * e <= y
    requires e * WORD <= 2 * y
    requires q0 * y <= x
    ensures x - q0 * y < 3 * y
  {
    MulLe(q0 + 1, g, e);
    MulLe(2, e, WORD);
    assert (q0 + 1) * e <= 2 * y;
    var p := (q0 + 1) * (y0 + 1);
    assert p == q0 * (y0 + 1) + (y0 + 1);
    MulLe(xs + 1, p, e);
    assert x < p * e;
    assert p * e == (q0 + 1) * ((y0 + 1) * e);
    MulLe((y0 + 1) * e, y + e, q0 + 1);
    assert (q0 + 1) * (y + e) == q0 * y + y + (q0 + 1) * e;
  }

  /** do_div64: it faults exactly when the shifted divisor is 2**32 - 1; else it divides, with at most two
      corrections. */
  method DoDiv64(x: nat, y: nat) returns (r: Quotient, ghost corrections: nat)
    requires x < W64 && y < W64
    ensures r == if TooClose(y) then Fault else Quotient(Div(x, y), Mod(x, y))
    ensures corrections <= 2
  {
    corrections := 0;
    var y1, y0, x1, x0 := y / WORD, y % WORD, x / WORD, x % WORD;
    if y1 != 0 {
      r, corrections := EstimateAndCorrect(x, y);
    } else if x1 < y0 {
      SmallQuotient(x, y);
      r := Divl(x1, x0, y0);
    } else if y0 != 0 {
      var high := Divl(0, x1, y0);
      assert high == Quotient(x1 / y0, x1 % y0);
      var low := Divl(high.rem, x0, y0);
      SchoolDivision(x1, x0, y0);
      r := Quotient(high.quot * WORD + low.quot, low.rem);
    } else {
      r := Quotient(0, x);
    }
  }

  /** The case of a divisor of more than 32 bits: divide what is left of both after a shift. */
  method EstimateAndCorrect(x: nat, y: nat) returns (r: Quotient, ghost corrections: nat)
    requires x < W64 && WORD <= y < W64
    ensures r == if TooClose(y) then Fault else Quotient(Div(x, y), Mod(x, y))
    ensures corrections <= 2
  {
    hide *;
    corrections := 0;
    var estimate := Estimate(x, y);
    EstimateFaults(x, y);
    if estimate == Fault {
      return Fault, 0;
    }
    var q, rem;
    q, rem, corrections := Correct(x, y, estimate.quot);
    r := Quotient(q, rem);
  }

  /** divl on a number of two words. */
  function DivlWide(x: nat, d: nat): Quotient { Divl(x / WORD, x % WORD, d) }

  /** What is left of both after the shift that leaves 32 bits of the divisor, divided. */
  function Estimate(x: nat, y: nat): Quotient
    requires WORD <= y
  {
    DivlWide(Quo(x, Exp2(Shift(y))), (Quo(y, Exp2(Shift(y))) + 1) % WORD)
  }

  lemma EstimateFaults(x: nat, y: nat)
    requires x < W64 && WORD <= y < W64
    ensures Estimate(x, y) == Fault <==> TooClose(y)
    ensures !TooClose(y) ==> var q0 := Estimate(x, y).quot; q0 * y <= x && x - q0 * y < 3 * y
  {
    hide Quo, Divl, DivlWide, Exp2, HighBit;
    var e := Exp2(Shift(y));
    var y0, xs := Quo(y, e), Quo(x, e);
    EstimateFacts(x, y, e, y0, xs, Quo(xs, y0 + 1));
    ShiftFacts(y);
    DivlOf(xs, y0);
  }

  /** Dividing by the next larger divisor, which does not exist for the largest word. */
  lemma DivlOf(x: nat, d: nat)
    requires d < WORD && Quo(x, d + 1) < WORD
    ensures var r := DivlWide(x, (d + 1) % WORD);
            if d == WORD - 1 then r == Fault else r.Quotient? && r.quot == Quo(x, d + 1)
  {
    assert (x / WORD) * WORD + x % WORD == x;
  }

  /** The correction loop. */
  method Correct(x: nat, y: nat, estimate: nat) returns (q: nat, r: nat, ghost corrections: nat)
    requires y > 0 && estimate * y <= x && x - estimate * y < 3 * y
    ensures q == Div(x, y) && r == Mod(x, y) && corrections <= 2
  {
    q, corrections := estimate, 0;
    r := x - y * q;
    while r >= y
      invariant x == y * q + r && r + corrections * y < 3 * y && corrections <= 2
      decreases r
    {
      Corrected(r, corrections, y);
      corrections := corrections + 1;
      assert y * (q + 1) == y * q + y;
      q := q + 1;
      r := r - y;
    }
    DivUnique(x, y, q, r);
  }

  lemma Corrected(rem: nat, c: nat, y: nat)
    requires rem >= y && rem + c * y < 3 * y
    ensures c < 2 && (rem - y) + (c + 1) * y < 3 * y
  {
    if c >= 2 {
      MulLe(2, c, y);
    }
    assert (c + 1) * y == c * y + y;
  }

  lemma SmallQuotient(x: nat, y: nat)
    requires y > 0 && x / WORD < y
    ensures x / y < WORD
  {
    DivBounds(x, WORD);
    MulLe(x / WORD + 1, y, WORD);
    DivBelow(x, y, WORD);
  }

  /** Dividing two words by one, high word first. */
  lemma SchoolDivision(x1: nat, x0: nat, y: nat)
    requires y > 0 && x0 < WORD
    ensures var r1 := x1 % y; var n := r1 * WORD + x0;
            n / y < WORD && (x1 * WORD + x0) / y == (x1 / y) * WORD + n / y && (x1 * WORD + x0) % y == n % y
  {
    var q1, r1 := x1 / y, x1 % y;
    var n := r1 * WORD + x0;
    assert x1 == y * q1 + r1;
    assert n / WORD == r1;
    SmallQuotient(n, y);
    assert n == y * (n / y) + n % y;
    var q := q1 * WORD + n / y;
    assert q * y == (y * q1) * WORD + y * (n / y);
    DivUnique(x1 * WORD + x0, y, q, n % y);
  }

  // ----- shift and subtract -----

  /** div64: the divisor is doubled while it fits, then halved and subtracted where it fits. */
  method Div64(x0: nat, div0: nat) returns (q: nat, rem: nat)
    requires x0 < W64 && div0 < W64
    ensures q == Div(x0, div0) && rem == Mod(x0, div0)
  {
    if div0 > x0 || div0 == 0 {
      if div0 > x0 {
        DivUnique(x0, div0, 0, x0);
      }
      return 0, x0;
    }
    var x, div, mul := x0, div0, 1;
    ghost var k: nat := 0;
    while div < 0x8000_0000_0000_0000
      invariant mul == Exp2(k) && div == div0 * mul && div <= x
      decreases x - div
    {
      var newd := div + div;
      if newd > x {
        break;
      }
      DoubleProduct(div0, mul);
      div := newd;
      mul := mul + mul;
      k := k + 1;
    }
    q := mul;
    x := x - div;
    while true
      invariant mul == Exp2(k) && div == div0 * mul && x < div && x0 == q * div0 + x
      decreases k
    {
      if mul == 1 {
        DivUnique(x0, div0, q, x);
        return q, x;
      }
      HalfProduct(div0, mul, k);
      mul := mul / 2;
      div := div / 2;
      k := k - 1;
      if x < div {
        continue;
      }
      assert (q + mul) * div0 == q * div0 + div0 * mul;
      q := q + mul;
      x := x - div;
    }
  }

  lemma DoubleProduct(a: nat, b: nat)
    ensures a * (b + b) == a * b + a * b
  {
  }

  lemma HalfProduct(a: nat, b: nat, k: nat)
    requires b == Exp2(k) && b != 1
    ensures k > 0 && b / 2 == Exp2(k - 1) && (a * b) / 2 == a * (b / 2) && a * b == 2 * (a * (b / 2))
  {
    DoubleProduct(a, b / 2);
  }

  /** The two divisions agree wherever the first one does not fault. */
  method BothDivisions(x: nat, y: nat) returns (same: bool)
    requires x < W64 && y < W64
    ensures same <==> !TooClose(y)
  {
    var r, _ := DoDiv64(x, y);
    var q, rem := Div64(x, y);
    same := r == Quotient(q, rem);
  }

  /** A divisor for which do_div64 faults, whatever is divided. */
  lemma FaultsAtTop()
    ensures TooClose(0xFFFF_FFFF_0000_0000)
  {
    Exp2Words();
    var k := HighBit(0xFFFF_FFFF);
    if k < 31 {
      Exp2Monotone(k + 1, 31);
    } else if k > 31 {
      Exp2Monotone(32, k);
    }
  }
}
