/** The kernel heap as a set of pieces: where they lie, which are free, and what a split or a merge keeps. */
module KernelPieces {
  import opened Integers
  import opened Dyadic
  import opened Pages

  const MARK_SIZE := 16
  const CHUNKSIZE := 80
  const MIN_ORDER := 4

  /** A piece of heap memory; a hole is a piece on its way between the program and the free lists. */
  datatype Piece =
    | FreeMedium(order: nat)
    | Hole(order: nat)
    | LiveMedium(order: nat, size: nat)
    | FreeSmall
    | SmallHole
    | LiveSmall(size: nat)
    | LiveLarge(size: nat)

  predicate IsMedium(pc: Piece) { pc.FreeMedium? || pc.Hole? || pc.LiveMedium? }

  predicate IsLive(pc: Piece) { pc.LiveMedium? || pc.LiveSmall? || pc.LiveLarge? }

  /** Bytes a piece takes up. */
  function Extent(pc: Piece): (e: nat)
    requires pc.LiveLarge? ==> pc.size > 0
  {
    if IsMedium(pc) then Exp2(pc.order)
    else if pc.LiveLarge? then PageCountPadded(pc.size) * PAGE_SIZE
    else CHUNKSIZE
  }

  /** A live piece holds its marked size, a medium one in the least order that does. */
  ghost predicate Sized(pc: Piece) {
    match pc
    case FreeMedium(k) => k >= MIN_ORDER
    case Hole(k) => k >= MIN_ORDER
    case LiveMedium(k, size) => k >= MIN_ORDER && size >= MARK_SIZE && LeastOrder(size, k)
    case FreeSmall => true
    case SmallHole => true
    case LiveSmall(size) => size == CHUNKSIZE
    case LiveLarge(size) => size >= MARK_SIZE
  }

  type Pieces = map<int, Piece>
  type Blocks = map<int, nat>

  ghost predicate Apart(ps: Pieces, p: int, q: int)
    requires p in ps && Sized(ps[p])
  {
    p < q ==> p + Extent(ps[p]) <= q
  }

  /** Pieces have legal sizes and do not overlap. */
  ghost predicate Separate(ps: Pieces) {
    && (forall p :: p in ps ==> p > 0 && Sized(ps[p]))
    && (forall p, q {:trigger Apart(ps, p, q)} :: p in ps && q in ps ==> Apart(ps, p, q))
  }

  ghost predicate Inside(bs: Blocks, b: int, p: int, k: nat)
  {
    b in bs && k <= bs[b] && b <= p && p + Exp2(k) <= b + Exp2(bs[b])
  }

  /** A medium piece is aligned to its order and lies in a block obtained from the page allocator. */
  ghost predicate InBlock(ps: Pieces, bs: Blocks, p: int)
    requires p in ps
  {
    IsMedium(ps[p]) ==> Aligned(p, ps[p].order) && exists b :: Inside(bs, b, p, ps[p].order)
  }

  ghost predicate Covers(ps: Pieces, p: int, a: int) { p in ps && IsMedium(ps[p]) && p <= a < p + Exp2(ps[p].order) }

  ghost predicate Covered(ps: Pieces, a: int) { exists p :: Covers(ps, p, a) }

  ghost predicate InSomeBlock(bs: Blocks, a: int) { exists b :: b in bs && b <= a < b + Exp2(bs[b]) }

  /** Blocks are aligned to their own size, no two have the same size, and they do not overlap. */
  ghost predicate BlocksOk(bs: Blocks) {
    && (forall b :: b in bs ==> b > 0 && Aligned(b, bs[b]))
    && (forall b, c :: b in bs && c in bs && b != c ==> bs[b] != bs[c])
    && (forall b, c :: b in bs && c in bs && b < c ==> b + Exp2(bs[b]) <= c)
  }

  /** Medium pieces tile exactly the blocks. */
  ghost predicate Tiled(ps: Pieces, bs: Blocks) {
    && Separate(ps) && BlocksOk(bs)
    && (forall p {:trigger InBlock(ps, bs, p)} :: p in ps ==> InBlock(ps, bs, p))
    && (forall a {:trigger Covered(ps, a)} :: InSomeBlock(bs, a) ==> Covered(ps, a))
  }

  /** Two free chunks that should have been merged. */
  ghost predicate Paired(ps: Pieces, p: int, q: int) {
    p > 0 && p in ps && q in ps && ps[p].FreeMedium? && ps[q] == ps[p] && q == Buddy(p, ps[p].order)
  }

  /** No two buddies are free at the same order, except that `but` may have a free buddy. */
  ghost predicate CoalescedBut(ps: Pieces, but: int) {
    forall p, q {:trigger Paired(ps, p, q)} :: Paired(ps, p, q) ==> p == but || q == but
  }

  /** No two buddies are free at the same order. */
  ghost predicate Coalesced(ps: Pieces) { CoalescedBut(ps, 0) }

  // ----- separation -----

  lemma Between(ps: Pieces, p: int, q: int)
    requires Separate(ps) && p in ps && q in ps
    ensures Apart(ps, p, q) && Apart(ps, q, p)
  {
    assert Apart(ps, p, q) && Apart(ps, q, p);
  }

  lemma ExtentAtLeast16(pc: Piece)
    requires Sized(pc)
    ensures Extent(pc) >= 16
  {
    if IsMedium(pc) {
      Exp2Monotone(MIN_ORDER, pc.order);
    }
  }

  /** A piece changes its role but not its place. */
  lemma RetagTiled(ps: Pieces, bs: Blocks, p: int, pc: Piece)
    requires Tiled(ps, bs) && p in ps && Sized(pc) && Extent(pc) == Extent(ps[p])
    requires IsMedium(pc) == IsMedium(ps[p]) && (IsMedium(pc) ==> pc.order == ps[p].order)
    ensures Tiled(ps[p := pc], bs)
  {
    var ps' := ps[p := pc];
    forall q, r | q in ps' && r in ps'
      ensures Apart(ps', q, r)
    {
      Between(ps, q, r);
    }
    forall q | q in ps'
      ensures InBlock(ps', bs, q)
    {
      assert InBlock(ps, bs, q);
    }
    forall a | InSomeBlock(bs, a)
      ensures Covered(ps', a)
    {
      assert Covered(ps, a);
      var c :| Covers(ps, c, a);
      assert Covers(ps', c, a);
    }
  }

  /** A chunk is split into its two halves. */
  function SplitPiece(ps: Pieces, p: int, k: nat): Pieces {
    ps[p := FreeMedium(k)][p + Exp2(k) := FreeMedium(k)]
  }

  lemma SplitTiled(ps: Pieces, bs: Blocks, p: int, k: nat)
    requires Tiled(ps, bs) && p in ps && ps[p] == Hole(k + 1) && k >= MIN_ORDER
    ensures p + Exp2(k) !in ps
    ensures Tiled(SplitPiece(ps, p, k), bs)
  {
    var ps', h := SplitPiece(ps, p, k), p + Exp2(k);
    SplitApart(ps, bs, p, k);
    assert InBlock(ps, bs, p);
    HalvesAligned(p, k);
    var b :| Inside(bs, b, p, k + 1);
    assert Inside(bs, b, p, k) && Inside(bs, b, h, k);
    forall q | q in ps'
      ensures InBlock(ps', bs, q)
    {
      if q != h && q != p {
        assert InBlock(ps, bs, q);
      }
    }
    forall a | InSomeBlock(bs, a)
      ensures Covered(ps', a)
    {
      assert Covered(ps, a);
      SplitCovers(ps, p, k, a);
    }
  }

  lemma SplitApart(ps: Pieces, bs: Blocks, p: int, k: nat)
    requires Tiled(ps, bs) && p in ps && ps[p] == Hole(k + 1) && k >= MIN_ORDER
    ensures p + Exp2(k) !in ps
    ensures var ps' := SplitPiece(ps, p, k); forall q, r :: q in ps' && r in ps' ==> Apart(ps', q, r)
  {
    var ps', h := SplitPiece(ps, p, k), p + Exp2(k);
    if h in ps {
      Between(ps, p, h);
    }
    forall q, r | q in ps' && r in ps'
      ensures Apart(ps', q, r)
    {
      if q in ps && r in ps {
        Between(ps, q, r);
      } else if q in ps {
        Between(ps, q, p);
      } else if r in ps {
        Between(ps, p, r);
      }
    }
  }

  lemma SplitCovers(ps: Pieces, p: int, k: nat, a: int)
    requires p in ps && ps[p] == Hole(k + 1) && p + Exp2(k) !in ps && Covered(ps, a)
    ensures Covered(SplitPiece(ps, p, k), a)
  {
    var ps' := SplitPiece(ps, p, k);
    var c :| Covers(ps, c, a);
    if c != p {
      assert Covers(ps', c, a);
    } else if a < p + Exp2(k) {
      assert Covers(ps', p, a);
    } else {
      assert Exp2(k + 1) == 2 * Exp2(k);
      assert Covers(ps', p + Exp2(k), a);
    }
  }

  lemma SplitCoalesced(ps: Pieces, bs: Blocks, p: int, k: nat)
    requires Tiled(ps, bs) && p in ps && ps[p] == Hole(k + 1) && p + Exp2(k) !in ps
    requires Tiled(SplitPiece(ps, p, k), bs)
    requires Coalesced(ps)
    ensures CoalescedBut(SplitPiece(ps, p, k), p)
  {
    var ps', h := SplitPiece(ps, p, k), p + Exp2(k);
    assert InBlock(ps, bs, p);
    HalvesAligned(p, k);
    BuddyFacts(p, k);
    forall q, r | Paired(ps', q, r)
      ensures q == p || r == p
    {
      if q != p && r != p {
        assert InBlock(ps', bs, q);
        BuddyFacts(q, ps'[q].order);
        assert q != h && r != h ==> Paired(ps, q, r);
      }
    }
  }

  /** A hole and its buddy become one larger hole. */
  function MergePieces(ps: Pieces, p: int, b: int, k: nat): Pieces {
    (ps - {p, b})[Parent(p, b) := Hole(k + 1)]
  }

  /** A buddy of the same order is in the same block, even though the test does not look at blocks. */
  lemma BuddySameBlock(ps: Pieces, bs: Blocks, p: int, k: nat) returns (b: int)
    requires Tiled(ps, bs) && p in ps && ps[p] == Hole(k)
    requires Buddy(p, k) in ps && IsMedium(ps[Buddy(p, k)]) && ps[Buddy(p, k)].order == k
    ensures Inside(bs, b, p, k) && k < bs[b]
  {
    var q := Buddy(p, k);
    assert InBlock(ps, bs, p) && InBlock(ps, bs, q);
    b :| Inside(bs, b, p, k);
    var c :| Inside(bs, c, q, k);
    BuddyFacts(p, k);
    if bs[b] == k {
      if bs[c] > k {
        // the other block would hold this piece too
        BuddyInside(q, k, c, bs[c]);
      }
    }
  }

  lemma MergeTiled(ps: Pieces, bs: Blocks, p: int, k: nat)
    requires Tiled(ps, bs) && p in ps && ps[p] == Hole(k)
    requires Buddy(p, k) in ps && ps[Buddy(p, k)] == Hole(k)
    ensures Tiled(MergePieces(ps, p, Buddy(p, k), k), bs)
    ensures exists b :: Inside(bs, b, p, k) && k < bs[b]
  {
    var q := Buddy(p, k);
    var b := BuddySameBlock(ps, bs, p, k);
    assert InBlock(ps, bs, p);
    BuddyFacts(p, k);
    BuddyInside(p, k, b, bs[b]);
    var lo := Parent(p, q);
    var hi := lo + Exp2(k);
    var ps' := MergePieces(ps, p, q, k);
    assert Inside(bs, b, lo, k + 1);
    forall r, s | r in ps' && s in ps'
      ensures Apart(ps', r, s)
    {
      if r in ps && s in ps {
        Between(ps, r, s);
        Between(ps, r, lo);
        Between(ps, hi, s);
      }
    }
    forall r | r in ps'
      ensures InBlock(ps', bs, r)
    {
      if r != lo {
        assert InBlock(ps, bs, r);
      }
    }
    forall a | InSomeBlock(bs, a)
      ensures Covered(ps', a)
    {
      assert Covered(ps, a);
      var c :| Covers(ps, c, a);
      assert Covers(ps', c, a) || Covers(ps', lo, a);
    }
  }

  /** A new block arrives as one free chunk. */
  lemma NewBlockTiled(ps: Pieces, bs: Blocks, b: int, e: nat)
    requires Tiled(ps, bs) && b > 0 && e >= MIN_ORDER && Aligned(b, e) && b !in ps
    requires forall p :: p in ps ==> p + Extent(ps[p]) <= b || b + Exp2(e) <= p
    requires forall c :: c in bs ==> bs[c] < e
    ensures b !in bs
    ensures Tiled(ps[b := FreeMedium(e)], bs[b := e])
  {
    var ps', bs' := ps[b := FreeMedium(e)], bs[b := e];
    NewBlockSeparate(ps, b, e);
    NewBlockApart(ps, bs, b, e);
    assert Inside(bs', b, b, e);
    forall p | p in ps'
      ensures InBlock(ps', bs', p)
    {
      if p != b {
        assert InBlock(ps, bs, p);
        if IsMedium(ps[p]) {
          var c :| Inside(bs, c, p, ps[p].order);
          assert Inside(bs', c, p, ps'[p].order);
        }
      }
    }
    forall a | InSomeBlock(bs', a)
      ensures Covered(ps', a)
    {
      if b <= a < b + Exp2(e) {
        assert Covers(ps', b, a);
      } else {
        assert InSomeBlock(bs, a);
        assert Covered(ps, a);
        var c :| Covers(ps, c, a);
        assert Covers(ps', c, a);
      }
    }
  }

  lemma NewBlockSeparate(ps: Pieces, b: int, e: nat)
    requires Separate(ps) && b > 0 && e >= MIN_ORDER && b !in ps
    requires forall p :: p in ps ==> p + Extent(ps[p]) <= b || b + Exp2(e) <= p
    ensures Separate(ps[b := FreeMedium(e)])
  {
    var ps' := ps[b := FreeMedium(e)];
    forall p, q | p in ps' && q in ps'
      ensures Apart(ps', p, q)
    {
      if p != b && q != b {
        Between(ps, p, q);
      } else if p != b {
        ExtentAtLeast16(ps[p]);
      }
    }
  }

  lemma NewBlockApart(ps: Pieces, bs: Blocks, b: int, e: nat)
    requires Tiled(ps, bs) && b > 0 && Aligned(b, e)
    requires forall p :: p in ps ==> p + Extent(ps[p]) <= b || b + Exp2(e) <= p
    requires forall c :: c in bs ==> bs[c] < e
    ensures b !in bs && BlocksOk(bs[b := e])
  {
    forall c | c in bs
      ensures c != b && (c + Exp2(bs[c]) <= b || b + Exp2(e) <= c)
    {
      BlockApart(ps, bs, c, b, e);
    }
  }

  lemma CoveredIsOutside(ps: Pieces, a: int, b: int, end: int)
    requires Separate(ps) && Covered(ps, a)
    requires forall p :: p in ps ==> p + Extent(ps[p]) <= b || end <= p
    ensures !(b <= a < end)
  {
    var p :| Covers(ps, p, a);
  }

  /** Memory disjoint from all pieces is disjoint from all blocks, because pieces fill the blocks. */
  lemma BlockApart(ps: Pieces, bs: Blocks, c: int, b: int, e: nat)
    requires Tiled(ps, bs) && c in bs
    requires forall p :: p in ps ==> p + Extent(ps[p]) <= b || b + Exp2(e) <= p
    ensures c + Exp2(bs[c]) <= b || b + Exp2(e) <= c
  {
    var a := if c <= b then b else c;
    if a < c + Exp2(bs[c]) {
      assert InSomeBlock(bs, a);
      assert Covered(ps, a);
      CoveredIsOutside(ps, a, b, b + Exp2(e));
    }
  }

  /** Pieces that are not medium may come and go. */
  lemma AddTiled(ps: Pieces, bs: Blocks, p: int, pc: Piece)
    requires Tiled(ps, bs) && p > 0 && p !in ps && Sized(pc) && !IsMedium(pc)
    requires forall q :: q in ps ==> q + Extent(ps[q]) <= p || p + Extent(pc) <= q
    ensures Tiled(ps[p := pc], bs)
  {
    var ps' := ps[p := pc];
    ExtentAtLeast16(pc);
    forall q, r | q in ps' && r in ps'
      ensures Apart(ps', q, r)
    {
      if q != p && r != p {
        Between(ps, q, r);
      } else if q != p {
        ExtentAtLeast16(ps[q]);
      }
    }
    OtherPieces(ps, ps', bs, p);
  }

  lemma DropTiled(ps: Pieces, bs: Blocks, p: int)
    requires Tiled(ps, bs) && p in ps && !IsMedium(ps[p])
    ensures Tiled(ps - {p}, bs)
  {
    var ps' := ps - {p};
    forall q, r | q in ps' && r in ps'
      ensures Apart(ps', q, r)
    {
      Between(ps, q, r);
    }
    OtherPieces(ps, ps', bs, p);
  }

  lemma OtherPieces(ps: Pieces, ps': Pieces, bs: Blocks, p: int)
    requires Tiled(ps, bs) && (p in ps ==> !IsMedium(ps[p])) && (p in ps' ==> !IsMedium(ps'[p]))
    requires ps - {p} == ps' - {p}
    ensures forall q :: q in ps' ==> InBlock(ps', bs, q)
    ensures forall a :: InSomeBlock(bs, a) ==> Covered(ps', a)
  {
    forall q | q in ps'
      ensures InBlock(ps', bs, q)
    {
      if q != p {
        assert q in ps - {p} && ps[q] == ps'[q];
        assert InBlock(ps, bs, q);
      }
    }
    forall a | InSomeBlock(bs, a)
      ensures Covered(ps', a)
    {
      assert Covered(ps, a);
      var c :| Covers(ps, c, a);
      assert c in ps - {p} && ps'[c] == ps[c];
      assert Covers(ps', c, a);
    }
  }

  // ----- full coalescing -----

  /** A piece that covers the buddy of another piece, without overlapping it, is the buddy if it is not smaller. */
  lemma CoveringBuddy(p: nat, k: nat, r: int, j: nat)
    requires Aligned(p, k) && Aligned(r, j) && k <= j
    requires var q := Buddy(p, k); r <= q < r + Exp2(j)
    requires p + Exp2(k) <= r || r + Exp2(j) <= p
    ensures r == Buddy(p, k) && j == k
  {
    BuddyFacts(p, k);
    var q := Buddy(p, k);
    var par := Parent(p, q);
    if j == k {
      if r < q { AlignedGap(r, q, k); }
    } else {
      AlignedCoarser(r, k + 1, j);
      AlignedNext(r, k + 1, j);
      if par < r {
        AlignedGap(par, r, k + 1);
      }
      AlignedGap(par, r + Exp2(j), k + 1);
    }
  }

  /** When nothing medium is live, a piece below the block's order would have a free buddy. */
  lemma {:induction false} NoSmallPiece(ps: Pieces, bs: Blocks, b: int, p: int)
    requires Tiled(ps, bs) && Coalesced(ps) && b in bs && p in ps
    requires forall q :: q in ps && IsMedium(ps[q]) ==> ps[q].FreeMedium?
    requires IsMedium(ps[p]) && Inside(bs, b, p, ps[p].order)
    ensures ps[p].order == bs[b]
    decreases ps[p].order
  {
    var k := ps[p].order;
    if k < bs[b] {
      assert InBlock(ps, bs, p);
      var q := Buddy(p, k);
      BuddyInside(p, k, b, bs[b]);
      BuddyFacts(p, k);
      assert InSomeBlock(bs, q);
      assert Covered(ps, q);
      var r :| Covers(ps, r, q);
      assert InBlock(ps, bs, r);
      var j := ps[r].order;
      Between(ps, p, r);
      if j < k {
        var c :| Inside(bs, c, r, j);
        SameBlock(bs, b, c, q);
        NoSmallPiece(ps, bs, b, r);
      } else {
        CoveringBuddy(p, k, r, j);
        assert Paired(ps, p, r);
      }
    }
  }

  lemma SameBlock(bs: Blocks, b: int, c: int, a: int)
    requires BlocksOk(bs) && b in bs && c in bs && b <= a < b + Exp2(bs[b]) && c <= a < c + Exp2(bs[c])
    ensures b == c
  {
  }

  /** Once every live medium chunk is freed, the free chunks are exactly the blocks from the page allocator. */
  lemma AllFreeIsAllBlocks(ps: Pieces, bs: Blocks)
    requires Tiled(ps, bs) && Coalesced(ps)
    requires forall q :: q in ps && IsMedium(ps[q]) ==> ps[q].FreeMedium?
    ensures forall p :: p in ps && ps[p].FreeMedium? ==> p in bs && bs[p] == ps[p].order
    ensures forall b :: b in bs ==> b in ps && ps[b] == FreeMedium(bs[b])
  {
    forall p | p in ps && ps[p].FreeMedium?
      ensures p in bs && bs[p] == ps[p].order
    {
      assert InBlock(ps, bs, p);
      var b :| Inside(bs, b, p, ps[p].order);
      NoSmallPiece(ps, bs, b, p);
    }
    forall b | b in bs
      ensures b in ps && ps[b] == FreeMedium(bs[b])
    {
      assert InSomeBlock(bs, b);
      assert Covered(ps, b);
      var p :| Covers(ps, p, b);
      assert InBlock(ps, bs, p);
      var c :| Inside(bs, c, p, ps[p].order);
      NoSmallPiece(ps, bs, c, p);
    }
  }
}
