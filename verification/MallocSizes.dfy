/** Size classes of the boundary-tag allocator: padding of requests, the map from
    chunk sizes to bins, and the words of the bin bitmap. */
module MallocSizes {
  import opened Integers

  const PAGE := 4096
  const SIZE_SZ := 4
  const MINSIZE := 16
  const NBINS := 96
  const NSMALLBINS := 32
  const MIN_LARGE_SIZE := 256
  const BITS_PER_MAP := 32
  const BINMAP_SIZE := 3
  const NFASTBINS := 10
  const MAX_FAST := 72
  const FASTBIN_CONSOLIDATION_THRESHOLD := 131072
  const TRIM_THRESHOLD := 262144

  /** Requests at or above this bound are refused before padding. */
  const REQUEST_LIMIT := WORD - 2 * MINSIZE

  function Request2Size(req: nat): (nb: nat)
    requires req < REQUEST_LIMIT
    ensures nb % 8 == 0 && nb >= MINSIZE && nb >= req + SIZE_SZ
    ensures forall s: nat :: s % 8 == 0 && s >= MINSIZE && s >= req + SIZE_SZ ==> nb <= s
    ensures nb + MINSIZE < WORD
  {
    var padded := req + SIZE_SZ + 7;
    if padded < MINSIZE then MINSIZE else padded - padded % 8
  }

  /** sYSMALLOc retries a request it has already padded by un-padding it first. */
  lemma RetryPadsToSameSize(nb: nat)
    requires nb % 8 == 0 && MINSIZE <= nb && InSmallBinRange(nb)
    ensures 0 <= nb - 7 < REQUEST_LIMIT && Request2Size(nb - 7) == nb
  {
  }

  predicate InSmallBinRange(sz: int) { sz < MIN_LARGE_SIZE }

  function LargeBinIndex(sz: nat): nat
    requires sz >= MIN_LARGE_SIZE
  {
    var x := sz / 256;
    if x >= 0x10000 then NBINS - 1
    else
      var m := HighBit(x);
      NSMALLBINS + 4 * m + (sz / Exp2(m + 6)) % 4
  }

  function BinIndex(sz: nat): nat {
    if InSmallBinRange(sz) then sz / 8 else LargeBinIndex(sz)
  }

  /** The four sub-bins of a power of two: the two bits under the highest one. */
  lemma LargeBinQuarter(sz: nat, m: nat)
    requires sz >= MIN_LARGE_SIZE && sz / 256 < 0x10000 && m == HighBit(sz / 256)
    ensures 4 <= sz / Exp2(m + 6) < 8
    ensures LargeBinIndex(sz) == NSMALLBINS + 4 * m + sz / Exp2(m + 6) - 4
    ensures m <= 15
  {
    Exp2Facts(m);
    DivideBetween(sz, Exp2(m + 6));
    if m > 15 {
      Exp2Monotone(16, m);
    }
  }

  lemma Exp2Facts(m: nat)
    ensures Exp2(m + 6) == 64 * Exp2(m) && Exp2(m + 1) == 2 * Exp2(m)
    ensures Exp2(16) == 0x10000
  {
    assert Exp2(m + 6) == 2 * Exp2(m + 5) && Exp2(m + 5) == 2 * Exp2(m + 4) && Exp2(m + 4) == 2 * Exp2(m + 3);
    assert Exp2(m + 3) == 2 * Exp2(m + 2) && Exp2(m + 2) == 2 * Exp2(m + 1);
    assert Exp2(8) == 256;
  }

  lemma DivideBetween(x: nat, p: nat)
    requires p > 0 && 4 * p <= x < 8 * p
    ensures 4 <= x / p < 8
  {
    var q := x / p;
    assert x == q * p + x % p;
    if q < 4 {
      MulLe(q, 3, p);
    } else if q >= 8 {
      MulLe(8, q, p);
    }
  }

  lemma DivideMonotone(a: nat, b: nat, p: nat)
    requires p > 0 && a <= b
    ensures a / p <= b / p
  {
    var qa, qb := a / p, b / p;
    assert a == qa * p + a % p && b == qb * p + b % p;
    assert (qb + 1) * p == qb * p + p;
    if qa > qb {
      MulLe(qb + 1, qa, p);
    }
  }

  lemma HighBitMonotone(a: nat, b: nat)
    requires 0 < a <= b
    ensures HighBit(a) <= HighBit(b)
  {
    if HighBit(b) < HighBit(a) {
      Exp2Monotone(HighBit(b) + 1, HighBit(a));
    }
  }

  /** Every chunk size owns a bin after the unsorted one, and sizes below the large range own small bins. */
  lemma BinIndexRange(sz: nat)
    requires sz >= MINSIZE
    ensures 2 <= BinIndex(sz) < NBINS
    ensures BinIndex(sz) < NSMALLBINS <==> InSmallBinRange(sz)
  {
    if !InSmallBinRange(sz) && sz / 256 < 0x10000 {
      LargeBinQuarter(sz, HighBit(sz / 256));
    }
  }

  /** The bin number never decreases with the size: the fact that makes a scan of bins upwards best-fit. */
  lemma BinIndexMonotone(a: nat, b: nat)
    requires MINSIZE <= a <= b
    ensures BinIndex(a) <= BinIndex(b)
  {
    BinIndexRange(a);
    BinIndexRange(b);
    if !InSmallBinRange(a) && b / 256 < 0x10000 {
      var ma, mb := HighBit(a / 256), HighBit(b / 256);
      HighBitMonotone(a / 256, b / 256);
      LargeBinQuarter(a, ma);
      LargeBinQuarter(b, mb);
      if ma == mb {
        DivideMonotone(a, b, Exp2(ma + 6));
      }
    }
  }

  /** A chunk in a later bin than the one of a request is strictly larger than the request. */
  lemma LaterBinIsLarger(nb: nat, sz: nat)
    requires MINSIZE <= nb && MINSIZE <= sz
    requires BinIndex(nb) < BinIndex(sz)
    ensures nb < sz
  {
    if sz <= nb {
      BinIndexMonotone(sz, nb);
    }
  }

  /** A small bin holds one size only. */
  lemma SmallBinIsExact(nb: nat, sz: nat)
    requires nb % 8 == 0 && sz % 8 == 0 && MINSIZE <= nb && MINSIZE <= sz
    requires InSmallBinRange(nb) && BinIndex(nb) == BinIndex(sz)
    ensures nb == sz
  {
    BinIndexRange(sz);
  }

  function FastBinIndex(sz: int): int { sz / 8 - 2 }

  // ----- bitmap words, least significant bit first -----

  type Word = w: seq<bool> | |w| == BITS_PER_MAP witness seq(BITS_PER_MAP, i => false)

  function BitsValue(w: seq<bool>): nat {
    if w == [] then 0 else (if w[0] then 1 else 0) + 2 * BitsValue(w[1..])
  }

  /** The scan's test "bit > map" holds exactly when no bit at or above this one is set. */
  lemma {:induction false} BitAboveMap(w: seq<bool>, j: nat)
    ensures Exp2(j) > BitsValue(w) <==> forall i :: j <= i < |w| ==> !w[i]
    decreases w
  {
    if w != [] {
      var t := w[1..];
      if j == 0 {
        BitAboveMap(t, 0);
        assert forall i :: 0 <= i < |t| ==> t[i] == w[i + 1];
        if forall i :: 0 <= i < |t| ==> !t[i] {
          assert forall i :: 1 <= i < |w| ==> w[i] == t[i - 1];
        }
      } else {
        BitAboveMap(t, j - 1);
        if Exp2(j) > BitsValue(w) {
          forall i | j <= i < |w| ensures !w[i] { assert w[i] == t[i - 1]; }
        } else {
          var i :| j - 1 <= i < |t| && t[i];
          assert w[i + 1];
        }
      }
    }
  }

  /** A zero word has no set bit, so the scan may skip its whole block. */
  lemma ZeroWordIsEmpty(w: seq<bool>)
    ensures BitsValue(w) == 0 <==> forall i :: 0 <= i < |w| ==> !w[i]
  {
    BitAboveMap(w, 0);
  }
}
