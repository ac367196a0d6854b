/** What the kernel heap keeps: its pieces, lists, words and pages agree, and every step preserves that. */
module KernelSound {
  import opened Integers
  import opened Lists
  import opened Options
  import opened Dyadic
  import opened Pages
  import opened KernelPieces
  import opened KernelMemory

  const SMALLALLOC := 64
  const LARGEALLOC := 131072
  const FIRST_EXPONENT := 17
  const FIRST_ALLOC_SMALL := 10240
  const HEAP_LIMIT := 0x8000_0000

  /** The pages a range of addresses touches are all in use. */
  ghost predicate RunHeld(used: seq<bool>, heap: int, from: int, to: int) {
    && heap <= from && to <= heap + |used| * PAGE_SIZE
    && forall k :: 0 <= k < |used| && heap + k * PAGE_SIZE < to && from < heap + (k + 1) * PAGE_SIZE ==> used[k]
  }

  ghost predicate PieceHeld(used: seq<bool>, heap: int, p: int, pc: Piece)
    requires Sized(pc)
  {
    RunHeld(used, heap, p, p + Extent(pc)) && (pc.LiveLarge? ==> (p - heap) % PAGE_SIZE == 0)
  }

  ghost predicate Held(ps: Pieces, used: seq<bool>, heap: int)
    requires Separate(ps)
  {
    forall p {:trigger PieceHeld(used, heap, p, ps[p])} :: p in ps ==> PieceHeld(used, heap, p, ps[p])
  }

  ghost function LivePieces(ps: Pieces): Pieces { map p | p in ps && IsLive(ps[p]) :: ps[p] }

  /** The last chunk pool that was obtained fitted in the heap. */
  ghost predicate SmallFits(next: nat, bytes: nat) { next > 0 ==> FIRST_ALLOC_SMALL * Exp2(next - 1) <= bytes }

  lemma BlockSizesGrow(bs: Blocks, next: nat, bytes: nat, b: int)
    requires BlockSizes(bs, next, bytes) && 2 * Exp2(FIRST_EXPONENT + next) <= bytes < HEAP_LIMIT
    ensures BlockSizes(bs[b := FIRST_EXPONENT + next], next + 1, bytes)
  {
    ExponentBound(FIRST_EXPONENT + next, bytes);
  }

  ghost predicate NoHoles(ps: Pieces) { forall p :: p in ps ==> !ps[p].Hole? && !ps[p].SmallHole? }

  /** Block exponents stay below the next one, and every block fitted twice in the heap. */
  ghost predicate BlockSizes(bs: Blocks, next: nat, bytes: nat) {
    && next <= 13
    && forall b :: b in bs ==> bs[b] < FIRST_EXPONENT + next && 2 * Exp2(bs[b]) <= bytes
  }

  /** The heap's contents as values. */
  datatype View = View(ps: Pieces, bs: Blocks, lists: seq<seq<int>>, pool: seq<int>,
                       m: Memory, tzl: seq<int>, chunkpool: int, used: seq<bool>, heap: int)

  /** Pieces tile the blocks, are coalesced, sit in the right lists and hold pages; memory holds marks and links. */
  ghost predicate Sound(v: View, but: int) {
    && Tiled(v.ps, v.bs) && CoalescedBut(v.ps, but)
    && Listed(v.ps, v.lists) && Pooled(v.ps, v.pool)
    && Stored(v.m, v.ps, v.tzl, v.lists, v.chunkpool, v.pool)
    && Held(v.ps, v.used, v.heap)
  }

  ghost predicate OnlySmallAdded(ps: Pieces, ps': Pieces) {
    && (forall p :: p in ps ==> p in ps' && ps'[p] == ps[p])
    && (forall p :: p in ps' && p !in ps ==> ps'[p] == FreeSmall)
  }

  lemma SmallLives(ps: Pieces, ps1: Pieces, p: int)
    requires OnlySmallAdded(ps, ps1) && p in ps1 && ps1[p] == FreeSmall
    ensures p !in LivePieces(ps)
    ensures LivePieces(ps1[p := LiveSmall(CHUNKSIZE)]) == LivePieces(ps)[p := LiveSmall(CHUNKSIZE)]
    ensures NoHoles(ps) ==> NoHoles(ps1[p := LiveSmall(CHUNKSIZE)])
  {
    var a, b := LivePieces(ps1[p := LiveSmall(CHUNKSIZE)]), LivePieces(ps)[p := LiveSmall(CHUNKSIZE)];
    forall q
      ensures q in a <==> q in b
      ensures q in a ==> a[q] == b[q]
    {
      assert q in ps1 && q !in ps ==> ps1[q] == FreeSmall;
    }
  }

  lemma EmptyPool(v: View)
    requires Sound(v, 0)
    ensures v.chunkpool == 0 <==> v.pool == []
  {
    if v.pool != [] {
      PopLinked(v.m, v.chunkpool, v.pool);
    }
  }

  lemma PopSmallSound(v: View) returns (v': View)
    requires Sound(v, 0) && v.pool != []
    ensures v.chunkpool == v.pool[0] > 0 && v.chunkpool in v.ps && v.ps[v.chunkpool] == FreeSmall && v.chunkpool in v.m
    ensures v' == v.(ps := v.ps[v.chunkpool := SmallHole], pool := v.pool[1..], chunkpool := v.m[v.chunkpool])
    ensures Sound(v', 0)
  {
    PopLinked(v.m, v.chunkpool, v.pool);
    var p := v.chunkpool;
    assert p in v.pool && v.pool == [p] + v.pool[1..] && p !in v.pool[1..];
    v' := v.(ps := v.ps[p := SmallHole], pool := v.pool[1..], chunkpool := v.m[p]);
    RetagTiled(v.ps, v.bs, p, SmallHole);
    RetagHeld(v.ps, v.used, v.heap, p, SmallHole);
    RetagCoalesced(v.ps, p, SmallHole);
    MarksRetagged(v.m, v.ps, p, SmallHole);
  }

  lemma MarksRetagged(m: Memory, ps: Pieces, p: int, pc: Piece)
    requires forall q {:trigger PieceMarked(m, q, ps[q])} :: q in ps ==> PieceMarked(m, q, ps[q])
    requires !IsLive(pc)
    ensures var ps' := ps[p := pc]; forall q {:trigger PieceMarked(m, q, ps'[q])} :: q in ps' ==>
        PieceMarked(m, q, ps'[q])
  {
    var ps' := ps[p := pc];
    forall q | q in ps'
      ensures PieceMarked(m, q, ps'[q])
    {
      if q != p {
        assert PieceMarked(m, q, ps[q]);
      }
    }
  }

  lemma PushSmallSound(v: View, p: int) returns (v': View)
    requires Sound(v, 0) && p in v.ps && v.ps[p].LiveSmall?
    ensures v' == v.(ps := v.ps[p := FreeSmall], pool := [p] + v.pool, chunkpool := p,
        m := Write32(v.m, p, v.chunkpool))
    ensures Sound(v', 0)
  {
    var m' := Write32(v.m, p, v.chunkpool);
    var ps1 := v.ps[p := SmallHole];
    assert Sized(v.ps[p]);
    RetagTiled(v.ps, v.bs, p, SmallHole);
    RetagStored(v, p, SmallHole);
    WriteInPiece(v.m, ps1, p, p, v.chunkpool);
    StoredKept(v.m, m', ps1, v.tzl, v.lists, v.chunkpool, v.pool, p);
    PushLinked(m', v.chunkpool, v.pool, p);
    MarksRetagged(m', ps1, p, FreeSmall);
    assert ps1[p := FreeSmall] == v.ps[p := FreeSmall];
    RetagTiled(v.ps, v.bs, p, FreeSmall);
    RetagHeld(v.ps, v.used, v.heap, p, FreeSmall);
    RetagCoalesced(v.ps, p, FreeSmall);
    v' := v.(ps := v.ps[p := FreeSmall], pool := [p] + v.pool, chunkpool := p, m := m');
  }

  // ----- a new pool of small chunks -----

  /** Chunk t of a pool links to chunk t + 1. */
  ghost predicate NextAt(m: Memory, base: int, t: int) { WordAt(m, base + CHUNKSIZE * t, base + CHUNKSIZE * (t + 1)) }

  /** Each of n chunks links to the next one, the last one to NULL. */
  ghost predicate Threaded(m: Memory, base: int, n: nat) {
    && (forall t :: 0 <= t < n - 1 ==> NextAt(m, base, t))
    && (n > 0 ==> WordAt(m, base + CHUNKSIZE * (n - 1), 0))
  }

  /** A word stored in chunk j leaves the links of the chunks before it alone. */
  lemma NextKept(m: Memory, m': Memory, base: int, j: nat, w: int)
    requires m' == Write32(m, base + CHUNKSIZE * j, w)
    requires forall t :: 0 <= t < j ==> NextAt(m, base, t)
    ensures forall t :: 0 <= t < j ==> NextAt(m', base, t)
  {
    forall t | 0 <= t < j
      ensures NextAt(m', base, t)
    {
      assert NextAt(m, base, t);
    }
  }

  function ChunkSeq(base: int, n: nat): (s: seq<int>)
    ensures |s| == n && forall t :: 0 <= t < n ==> s[t] == base + CHUNKSIZE * t
  {
    if n == 0 then [] else ChunkSeq(base, n - 1) + [base + CHUNKSIZE * (n - 1)]
  }

  function AddChunks(ps: Pieces, base: int, n: nat): Pieces {
    if n == 0 then ps else AddChunks(ps, base, n - 1)[base + CHUNKSIZE * (n - 1) := FreeSmall]
  }

  /** The pieces with chunks added: the old ones, and the chunks. */
  ghost predicate ChunksNew(ps: Pieces, ps': Pieces, s: seq<int>) {
    && (forall q :: q in ps ==> q in ps' && ps'[q] == ps[q])
    && (forall q :: q in s ==> q in ps' && q !in ps && ps'[q] == FreeSmall)
    && (forall q :: q in ps' && q !in ps ==> q in s)
  }

  /** No piece touches the range. */
  ghost predicate ClearOf(ps: Pieces, from: int, to: int) {
    forall q :: q in ps && Sized(ps[q]) ==> q + Extent(ps[q]) <= from || to <= q
  }

  lemma {:induction false} ChunksAdded(ps: Pieces, bs: Blocks, base: int, n: nat, to: int)
    requires Tiled(ps, bs) && base > 0 && ClearOf(ps, base, to) && base + CHUNKSIZE * n <= to
    ensures Tiled(AddChunks(ps, base, n), bs) && ChunksNew(ps, AddChunks(ps, base, n), ChunkSeq(base, n))
  {
    hide Tiled, ClearOf, ChunksNew;
    if n == 0 {
      NoChunks(ps);
    } else {
      ChunksAdded(ps, bs, base, n - 1, to);
      ChunkAdded(ps, AddChunks(ps, base, n - 1), bs, base, n - 1, to);
    }
  }

  lemma NoChunks(ps: Pieces)
    ensures ChunksNew(ps, ps, [])
  {
  }

  lemma ChunkAdded(ps: Pieces, ps1: Pieces, bs: Blocks, base: int, n: nat, to: int)
    requires Tiled(ps, bs) && Tiled(ps1, bs) && base > 0 && ClearOf(ps, base, to) && base + CHUNKSIZE * (n + 1) <= to
    requires ChunksNew(ps, ps1, ChunkSeq(base, n))
    ensures var c := base + CHUNKSIZE * n;
            Tiled(ps1[c := FreeSmall], bs) && ChunksNew(ps, ps1[c := FreeSmall], ChunkSeq(base, n) + [c])
  {
    var c := base + CHUNKSIZE * n;
    forall q | q in ps1
      ensures q != c && (q + Extent(ps1[q]) <= c || c + CHUNKSIZE <= q)
    {
      ExtentAtLeast16(ps1[q]);
      if q !in ps {
        assert q in ChunkSeq(base, n);
      }
    }
    AddTiled(ps1, bs, c, FreeSmall);
  }

  function PoolView(v: View, base: int, n: nat, m: Memory): View {
    v.(ps := AddChunks(v.ps, base, n), pool := ChunkSeq(base, n), m := m, chunkpool := base)
  }

  /** A new pool of chunks fills its room. */
  lemma PoolSound(v: View, base: int, n: nat, m: Memory)
    requires Sound(v, 0) && v.pool == [] && n > 0 && Room(v, base, base + CHUNKSIZE * n)
    requires SameOutside(v.m, m, base, base + CHUNKSIZE * n) && Threaded(m, base, n)
    ensures Sound(PoolView(v, base, n, m), 0) && OnlySmallAdded(v.ps, AddChunks(v.ps, base, n))
  {
    hide Threaded;
    var ps', s := AddChunks(v.ps, base, n), ChunkSeq(base, n);
    ChunksAdded(v.ps, v.bs, base, n, base + CHUNKSIZE * n);
    StoredApart(v.m, m, v.ps, v.tzl, v.lists, v.chunkpool, v.pool, base, base + CHUNKSIZE * n);
    ChunksLinked(m, base, n);
    ChunksPooled(v.ps, ps', v.lists, s);
    ChunksMarked(m, v.ps, ps', s);
    ChunksHeld(v.ps, ps', v.used, v.heap, base, n);
    ChunksCoalesced(v.ps, ps', s);
  }

  lemma ChunksCoalesced(ps: Pieces, ps': Pieces, s: seq<int>)
    requires ChunksNew(ps, ps', s) && Coalesced(ps)
    ensures Coalesced(ps')
  {
    forall p, q | p in ps' && q in ps'
      ensures Paired(ps', p, q) ==> Paired(ps, p, q)
    {
    }
  }

  lemma ChunksMarked(m: Memory, ps: Pieces, ps': Pieces, s: seq<int>)
    requires ChunksNew(ps, ps', s)
    requires forall q {:trigger PieceMarked(m, q, ps[q])} :: q in ps ==> PieceMarked(m, q, ps[q])
    ensures forall q {:trigger PieceMarked(m, q, ps'[q])} :: q in ps' ==> PieceMarked(m, q, ps'[q])
  {
    forall q | q in ps'
      ensures PieceMarked(m, q, ps'[q])
    {
      if q in ps {
        assert PieceMarked(m, q, ps[q]);
      }
    }
  }

  lemma ChunksHeld(ps: Pieces, ps': Pieces, used: seq<bool>, heap: int, base: int, n: nat)
    requires Separate(ps) && Separate(ps') && ChunksNew(ps, ps', ChunkSeq(base, n)) && Held(ps, used, heap)
    requires RunHeld(used, heap, base, base + CHUNKSIZE * n)
    ensures Held(ps', used, heap)
  {
    forall q | q in ps'
      ensures PieceHeld(used, heap, q, ps'[q])
    {
      if q in ps {
        assert PieceHeld(used, heap, q, ps[q]);
      } else {
        var t :| 0 <= t < n && ChunkSeq(base, n)[t] == q;
        RunInside(used, heap, base, base + CHUNKSIZE * n, q, q + CHUNKSIZE);
      }
    }
  }

  lemma ChunksLinked(m: Memory, base: int, n: nat)
    requires n > 0 && base > 0 && Threaded(m, base, n)
    ensures Linked(m, base, ChunkSeq(base, n))
  {
    var s := ChunkSeq(base, n);
    forall t | 0 <= t < n
      ensures LinkAt(m, s, t)
    {
      assert t < n - 1 ==> NextAt(m, base, t);
    }
  }

  lemma ChunksPooled(ps: Pieces, ps': Pieces, lists: seq<seq<int>>, s: seq<int>)
    requires ChunksNew(ps, ps', s) && Listed(ps, lists) && Pooled(ps, []) && NoDups(s)
    ensures Listed(ps', lists) && Pooled(ps', s)
  {
    assert forall p :: p in ps && ps[p].FreeSmall? ==> p in [];
  }

  /** A live medium chunk becomes a hole of its own order, which its size determines. */
  lemma ReleaseSound(v: View, p: int) returns (order: nat)
    requires Sound(v, 0) && p in v.ps && v.ps[p].LiveMedium? && forall c :: c in v.bs ==> v.bs[c] < TZL_SIZE
    ensures v.ps[p].order == order && LeastOrder(v.ps[p].size, order) && order < TZL_SIZE
    ensures p > 0 && v.ps[p].size > 0
    ensures Sound(v.(ps := v.ps[p := Hole(order)]), 0)
  {
    order := v.ps[p].order;
    assert Sized(v.ps[p]);
    assert InBlock(v.ps, v.bs, p);
    RetagTiled(v.ps, v.bs, p, Hole(order));
    RetagHeld(v.ps, v.used, v.heap, p, Hole(order));
    RetagStored(v, p, Hole(order));
    RetagCoalesced(v.ps, p, Hole(order));
  }

  lemma GaveBackLives(ps: Pieces, ps': Pieces, p: int, k: nat)
    requires GaveBack(ps[p := Hole(k)], ps', p) && p in ps && IsLive(ps[p])
    ensures LivePieces(ps') == LivePieces(ps) - {p}
    ensures NoHoles(ps) ==> NoHoles(ps')
  {
    var a, b := LivePieces(ps'), LivePieces(ps) - {p};
    forall q
      ensures q in a <==> q in b
      ensures q in a ==> a[q] == b[q]
    {
      if q != p && q in ps && !ps[q].FreeMedium? {
        assert q in ps[p := Hole(k)];
      }
    }
  }

  /** A hole has gone into the free lists; nothing but it and free chunks changed. */
  ghost predicate GaveBack(ps: Pieces, ps': Pieces, self: int) {
    && (forall p :: p in ps && !ps[p].FreeMedium? && p != self ==> p in ps' && ps'[p] == ps[p])
    && (forall p :: p in ps' && !ps'[p].FreeMedium? ==> p in ps && p != self && ps'[p] == ps[p])
  }

  lemma MergedGaveBack(ps: Pieces, ps': Pieces, self: int, buddy: int, k: nat)
    requires self in ps && ps[self] == Hole(k) && buddy in ps && ps[buddy] == FreeMedium(k)
    requires GaveBack(MergePieces(ps[buddy := Hole(k)], self, buddy, k), ps', Parent(self, buddy))
    ensures GaveBack(ps, ps', self)
  {
    var mid := MergePieces(ps[buddy := Hole(k)], self, buddy, k);
    forall p | p in ps && !ps[p].FreeMedium? && p != self
      ensures p in ps' && ps'[p] == ps[p]
    {
      assert p in mid && mid[p] == ps[p];
    }
  }

  /** The link of a chunk in a list leads to the next one. */
  lemma NextInList(v: View, i: nat, j: nat)
    requires Sound(v, 0) && i < TZL_SIZE && j < |v.lists[i]|
    ensures var p := v.lists[i][j]; var n := if j + 1 < |v.lists[i]| then v.lists[i][j + 1] else 0;
            p > 0 && p in v.m && v.m[p] == n && (n != 0 ==> n in v.m) && (j + 1 < |v.lists[i]| ==> n > 0)
  {
    assert Linked(v.m, v.tzl[i], v.lists[i]);
    assert LinkAt(v.m, v.lists[i], j);
    if j + 1 < |v.lists[i]| {
      assert LinkAt(v.m, v.lists[i], j + 1);
    }
  }

  lemma CutSound(v: View, i: nat, j: nat) returns (v': View)
    requires Sound(v, 0) && i < TZL_SIZE && j < |v.lists[i]|
    ensures var s := v.lists[i]; var p := s[j];
            && |v.tzl| == |v.lists| == TZL_SIZE && p in v.ps && v.ps[p] == FreeMedium(i) && p in v.m
            && (j > 0 ==> s[j - 1] > 0)
            && v' == v.(ps := v.ps[p := Hole(i)], lists := v.lists[i := s[..j] + s[j + 1..]],
                        tzl := if j == 0 then v.tzl[i := v.m[p]] else v.tzl,
                        m := if j == 0 then v.m else Write32(v.m, s[j - 1], v.m[p]))
    ensures Sound(v', 0)
  {
    var s := v.lists[i];
    var p := s[j];
    assert p in s;
    NextInList(v, i, j);
    if j > 0 {
      NextInList(v, i, j - 1);
    }
    v' := v.(ps := v.ps[p := Hole(i)], lists := v.lists[i := s[..j] + s[j + 1..]],
             tzl := if j == 0 then v.tzl[i := v.m[p]] else v.tzl,
             m := if j == 0 then v.m else Write32(v.m, s[j - 1], v.m[p]));
    CutListed(v.ps, v.lists, v.pool, i, j);
    CutStored(v, i, j, v');
    RetagTiled(v.ps, v.bs, p, Hole(i));
    RetagHeld(v.ps, v.used, v.heap, p, Hole(i));
    RetagCoalesced(v.ps, p, Hole(i));
  }

  lemma CutListed(ps: Pieces, lists: seq<seq<int>>, pool: seq<int>, i: nat, j: nat)
    requires Listed(ps, lists) && Pooled(ps, pool) && i < TZL_SIZE && j < |lists[i]|
    ensures var s := lists[i]; var p := s[j];
            && p in ps && ps[p] == FreeMedium(i)
            && Listed(ps[p := Hole(i)], lists[i := s[..j] + s[j + 1..]]) && Pooled(ps[p := Hole(i)], pool)
  {
    var s := lists[i];
    var p := s[j];
    var s' := s[..j] + s[j + 1..];
    assert p in s;
    forall q
      ensures q in s' <==> q in s && q != p
    {
      if q in s && q != p {
        var k :| 0 <= k < |s| && s[k] == q;
        assert s'[if k < j then k else k - 1] == q;
      }
    }
    assert NoDups(s');
  }

  lemma CutStored(v: View, i: nat, j: nat, v': View)
    requires Separate(v.ps) && Listed(v.ps, v.lists) && Pooled(v.ps, v.pool)
    requires Stored(v.m, v.ps, v.tzl, v.lists, v.chunkpool, v.pool)
    requires i < TZL_SIZE && j < |v.lists[i]| && v.lists[i][j] in v.m && v.lists[i][j] in v.ps
    requires var s := v.lists[i]; var p := s[j];
      v' == v.(ps := v.ps[p := Hole(i)], lists := v.lists[i := s[..j] + s[j + 1..]],
               tzl := if j == 0 then v.tzl[i := v.m[p]] else v.tzl,
               m := if j == 0 then v.m else Write32(v.m, s[j - 1], v.m[p]))
    ensures Stored(v'.m, v'.ps, v'.tzl, v'.lists, v'.chunkpool, v'.pool)
  {
    var s := v.lists[i];
    var p := s[j];
    if j > 0 {
      var prev := s[j - 1];
      assert prev in s;
      ExtentAtLeast16(v.ps[prev]);
      WriteInPiece(v.m, v.ps, prev, prev, v.m[p]);
      CutOthers(v, v'.m, i, prev);
    }
    forall x | x in s && (j == 0 || x != s[j - 1]) && x in v.m
      ensures x in v'.m && v'.m[x] == v.m[x]
    {
      if j > 0 {
        Between(v.ps, s[j - 1], x);
        ExtentAtLeast16(v.ps[x]);
      }
    }
    CutLinked(v.m, v'.m, v.tzl[i], s, j);
    forall q | q in v'.ps
      ensures PieceMarked(v'.m, q, v'.ps[q])
    {
      if q != p {
        assert PieceMarked(v.m, q, v.ps[q]);
        if j > 0 && q != s[j - 1] {
          MarkKept(v.m, v'.m, v.ps, s[j - 1], q, v.ps[q]);
        }
      }
    }
  }

  /** Rewriting the link of a chunk in one list leaves the other lists alone. */
  lemma CutOthers(v: View, m': Memory, i: nat, prev: int)
    requires Separate(v.ps) && Listed(v.ps, v.lists) && Pooled(v.ps, v.pool)
    requires Stored(v.m, v.ps, v.tzl, v.lists, v.chunkpool, v.pool)
    requires i < TZL_SIZE && prev in v.lists[i] && prev in v.ps && SameOutside(v.m, m', prev, prev + Extent(v.ps[prev]))
    ensures forall k :: 0 <= k < TZL_SIZE && k != i ==> Linked(m', v.tzl[k], v.lists[k])
    ensures Linked(m', v.chunkpool, v.pool)
  {
    forall k | 0 <= k < TZL_SIZE && k != i
      ensures Linked(m', v.tzl[k], v.lists[k])
    {
      ListKept(v.m, m', v.ps, prev, v.tzl[k], v.lists[k]);
    }
    ListKept(v.m, m', v.ps, prev, v.chunkpool, v.pool);
  }

  lemma MergeSound(v: View, k: nat, p: int)
    requires Sound(v, 0) && p in v.ps && p > 0 && v.ps[p] == Hole(k) && Buddy(p, k) in v.ps
    requires v.ps[Buddy(p, k)] == Hole(k)
    ensures Sound(v.(ps := MergePieces(v.ps, p, Buddy(p, k), k)), 0)
    ensures exists b :: Inside(v.bs, b, p, k) && k < v.bs[b]
    ensures Parent(p, Buddy(p, k)) > 0
  {
    var q := Buddy(p, k);
    MergeTiled(v.ps, v.bs, p, k);
    assert InBlock(v.ps, v.bs, p);
    BuddyFacts(p, k);
    MergeHeld(v.ps, v.used, v.heap, p, q, k);
    MergeMarked(v.m, v.ps, p, q, k);
    MergeCoalesced(v.ps, p, q, k);
  }

  lemma MergeHeld(ps: Pieces, used: seq<bool>, heap: int, p: int, q: int, k: nat)
    requires Separate(ps) && Held(ps, used, heap) && Separate(MergePieces(ps, p, q, k))
    requires p in ps && q in ps && ps[p] == Hole(k) && ps[q] == Hole(k)
    requires (Parent(p, q) == p && q == p + Exp2(k)) || (Parent(p, q) == q && p == q + Exp2(k))
    ensures Held(MergePieces(ps, p, q, k), used, heap)
  {
    var ps' := MergePieces(ps, p, q, k);
    forall r | r in ps'
      ensures PieceHeld(used, heap, r, ps'[r])
    {
      if r == Parent(p, q) {
        assert PieceHeld(used, heap, p, ps[p]) && PieceHeld(used, heap, q, ps[q]);
      } else {
        assert PieceHeld(used, heap, r, ps[r]);
      }
    }
  }

  lemma MergeMarked(m: Memory, ps: Pieces, p: int, q: int, k: nat)
    requires forall r {:trigger PieceMarked(m, r, ps[r])} :: r in ps ==> PieceMarked(m, r, ps[r])
    ensures var ps' := MergePieces(ps, p, q, k);
            forall r {:trigger PieceMarked(m, r, ps'[r])} :: r in ps' ==> PieceMarked(m, r, ps'[r])
  {
    var ps' := MergePieces(ps, p, q, k);
    forall r | r in ps'
      ensures PieceMarked(m, r, ps'[r])
    {
      if r != Parent(p, q) {
        assert PieceMarked(m, r, ps[r]);
      }
    }
  }

  lemma MergeCoalesced(ps: Pieces, p: int, q: int, k: nat)
    requires Coalesced(ps)
    ensures Coalesced(MergePieces(ps, p, q, k))
  {
    var ps' := MergePieces(ps, p, q, k);
    forall r, s | r in ps' && s in ps'
      ensures Paired(ps', r, s) ==> Paired(ps, r, s)
    {
    }
  }

  lemma BuddyNotFree(v: View, k: nat, p: int)
    requires Sound(v, 0) && k < TZL_SIZE && p > 0 && forall i :: 0 <= i < |v.lists[k]| ==> v.lists[k][i] != Buddy(p, k)
    ensures !(Buddy(p, k) in v.ps && v.ps[Buddy(p, k)] == FreeMedium(k))
  {
  }

  /** A hole of the right extent for a live piece. */
  ghost predicate BecomesLive(hole: Piece, pc: Piece) {
    && Sized(pc) && IsLive(pc)
    && ((hole.Hole? && pc.LiveMedium? && pc.order == hole.order) || (hole.SmallHole? && pc.LiveSmall?))
  }

  /** The four stores that mark a block. */
  function WriteMarks(m: Memory, p: int, size: int, mg: int): Memory {
    Write32(Write32(Write32(Write32(m, p, size), p + 4, mg), p + size - 8, mg), p + size - 4, size)
  }

  lemma MarksWritten(m: Memory, p: int, size: int, mg: int)
    requires size >= MARK_SIZE
    ensures var m4 := WriteMarks(m, p, size, mg);
            && WordAt(m4, p, size) && WordAt(m4, p + 4, mg) && WordAt(m4, p + size - 8, mg)
            && WordAt(m4, p + size - 4, size)
  {
    var m1 := Write32(m, p, size);
    var m2 := Write32(m1, p + 4, mg);
    var m3 := Write32(m2, p + size - 8, mg);
    assert WordAt(m2, p, size) && WordAt(m3, p, size) && WordAt(m3, p + 4, mg);
  }

  lemma MarksInside(m: Memory, p: int, size: int, mg: int)
    requires size >= MARK_SIZE
    ensures SameOutside(m, WriteMarks(m, p, size, mg), p, p + size)
  {
    var m1 := Write32(m, p, size);
    var m2 := Write32(m1, p + 4, mg);
    var m3 := Write32(m2, p + size - 8, mg);
    WriteSame(m, p, size, p, p + size);
    WriteSame(m1, p + 4, mg, p, p + size);
    SameTrans(m, m1, m2, p, p + size);
    WriteSame(m2, p + size - 8, mg, p, p + size);
    SameTrans(m, m2, m3, p, p + size);
    WriteSame(m3, p + size - 4, size, p, p + size);
    SameTrans(m, m3, WriteMarks(m, p, size, mg), p, p + size);
  }

  lemma SameTrans(m: Memory, m1: Memory, m2: Memory, from: int, to: int)
    requires SameOutside(m, m1, from, to) && SameOutside(m1, m2, from, to)
    ensures SameOutside(m, m2, from, to)
  {
  }

  lemma MarkStores(v: View, p: int, pc: Piece) returns (m4: Memory)
    requires Separate(v.ps) && Listed(v.ps, v.lists) && Pooled(v.ps, v.pool)
    requires Stored(v.m, v.ps, v.tzl, v.lists, v.chunkpool, v.pool)
    requires p in v.ps && BecomesLive(v.ps[p], pc)
    ensures m4 == WriteMarks(v.m, p, pc.size, Magic(p, KindOf(pc)))
    ensures var ps' := v.ps[p := pc];
            Listed(ps', v.lists) && Pooled(ps', v.pool) && Stored(m4, ps', v.tzl, v.lists, v.chunkpool, v.pool)
  {
    var mg := Magic(p, KindOf(pc));
    ExtentHoldsSize(pc);
    m4 := WriteMarks(v.m, p, pc.size, mg);
    MarksWritten(v.m, p, pc.size, mg);
    MarksInside(v.m, p, pc.size, mg);
    assert SameOutside(v.m, m4, p, p + Extent(v.ps[p]));
    StoredKept(v.m, m4, v.ps, v.tzl, v.lists, v.chunkpool, v.pool, p);
    RetagStored(v.(m := m4), p, pc);
  }

  lemma MarkSound(v: View, p: int, pc: Piece) returns (v': View)
    requires Sound(v, 0) && p in v.ps && BecomesLive(v.ps[p], pc)
    ensures v' == v.(ps := v.ps[p := pc], m := WriteMarks(v.m, p, pc.size, Magic(p, KindOf(pc))))
    ensures Sound(v', 0)
  {
    var m4 := MarkStores(v, p, pc);
    v' := v.(ps := v.ps[p := pc], m := m4);
    RetagTiled(v.ps, v.bs, p, pc);
    RetagHeld(v.ps, v.used, v.heap, p, pc);
    RetagCoalesced(v.ps, p, pc);
  }

  /** A piece outside the free lists changes its role; if it becomes live its marks are in place. */
  lemma RetagStored(v: View, p: int, pc: Piece)
    requires Listed(v.ps, v.lists) && Pooled(v.ps, v.pool) && Stored(v.m, v.ps, v.tzl, v.lists, v.chunkpool, v.pool)
    requires p in v.ps && !v.ps[p].FreeMedium? && !v.ps[p].FreeSmall? && !pc.FreeMedium? && !pc.FreeSmall?
    requires PieceMarked(v.m, p, pc)
    ensures var ps' := v.ps[p := pc];
            Listed(ps', v.lists) && Pooled(ps', v.pool) && Stored(v.m, ps', v.tzl, v.lists, v.chunkpool, v.pool)
  {
    var ps' := v.ps[p := pc];
    forall q | q in ps'
      ensures PieceMarked(v.m, q, ps'[q])
    {
      if q != p {
        assert PieceMarked(v.m, q, v.ps[q]);
      }
    }
  }

  lemma RetagCoalesced(ps: Pieces, p: int, pc: Piece)
    requires Coalesced(ps) && p in ps && !pc.FreeMedium?
    ensures Coalesced(ps[p := pc])
  {
    var ps' := ps[p := pc];
    forall q, r | q in ps' && r in ps'
      ensures Paired(ps', q, r) ==> Paired(ps, q, r)
    {
    }
  }

  lemma MediumOrder(size: nat, k: nat)
    requires LeastOrder(size, k) && SMALLALLOC + MARK_SIZE < size < LARGEALLOC + MARK_SIZE
    ensures MIN_ORDER <= k <= FIRST_EXPONENT + 1
  {
    Exp2Values();
    OrderBound(size, k, 18);
    if k < MIN_ORDER {
      Exp2Monotone(k, MIN_ORDER);
    }
  }

  lemma Exp2Values()
    ensures Exp2(4) == 16 && Exp2(17) == 131072 && Exp2(18) == 262144
  {
    assert Exp2(10) == 1024;
  }

  lemma GainedLives(ps: Pieces, ps1: Pieces, p: int, pc: Piece)
    requires forall q :: q in ps && !ps[q].FreeMedium? ==> q in ps1 && ps1[q] == ps[q]
    requires forall q :: q in ps1 && !ps1[q].FreeMedium? ==> q in ps && ps1[q] == ps[q]
    requires p in ps1 && ps1[p].FreeMedium? && IsLive(pc)
    ensures p !in LivePieces(ps)
    ensures LivePieces(ps1[p := pc]) == LivePieces(ps)[p := pc]
    ensures NoHoles(ps) ==> NoHoles(ps1[p := pc])
  {
    var a, b := LivePieces(ps1[p := pc]), LivePieces(ps)[p := pc];
    forall q
      ensures q in a <==> q in b
      ensures q in a ==> a[q] == b[q]
    {
      if q != p && q in ps && !ps[q].FreeMedium? {
        assert ps1[q] == ps[q];
      }
    }
  }

  /** A list is empty exactly when its head is NULL. */
  lemma TopOfList(v: View, i: nat)
    requires Sound(v, 0) && i < TZL_SIZE
    ensures |v.tzl| == |v.lists| == TZL_SIZE
    ensures v.tzl[i] == 0 <==> v.lists[i] == []
    ensures v.lists[i] != [] ==> v.tzl[i] == v.lists[i][0] > 0 && v.tzl[i] in v.m
    ensures v.lists[i] != [] ==> Sound(v, v.lists[i][0])
  {
    assert Linked(v.m, v.tzl[i], v.lists[i]);
    if v.lists[i] != [] {
      PopLinked(v.m, v.tzl[i], v.lists[i]);
      CoalescedWeaker(v.ps, v.lists[i][0]);
    }
  }

  lemma SoundWeaker(v: View, x: int)
    requires Sound(v, 0)
    ensures Sound(v, x)
  {
    CoalescedWeaker(v.ps, x);
  }

  lemma CoalescedWeaker(ps: Pieces, x: int)
    requires Separate(ps) && Coalesced(ps)
    ensures CoalescedBut(ps, x)
  {
    forall p, q | p in ps && q in ps
      ensures !Paired(ps, p, q)
    {
    }
  }

  lemma NewBlockGains(v: View, e: nat, chunk: int)
    requires e < |v.lists| == TZL_SIZE && e < |v.tzl| && chunk !in v.ps
    ensures GainedFree(v.ps, NewBlockView(v, e, chunk).ps, NewBlockView(v, e, chunk).lists, e)
  {
  }

  function NewBlockView(v: View, e: nat, chunk: int): View
    requires e < |v.lists| && e < |v.tzl|
  {
    v.(ps := v.ps[chunk := FreeMedium(e)], bs := v.bs[chunk := e], lists := v.lists[e := [chunk]],
       m := Write32(v.m, chunk, 0), tzl := v.tzl[e := chunk])
  }

  /** A list gained a free chunk, and nothing but free chunks changed. */
  ghost predicate GainedFree(ps: Pieces, ps': Pieces, lists: seq<seq<int>>, i: nat) {
    && |lists| == TZL_SIZE && i < TZL_SIZE && lists[i] != []
    && (forall p :: p in ps && !ps[p].FreeMedium? ==> p in ps' && ps'[p] == ps[p])
    && (forall p :: p in ps' && !ps'[p].FreeMedium? ==> p in ps && ps'[p] == ps[p])
  }

  /** Rounding an address up to the next multiple of a power of two. */
  lemma AlignUp(ptr: int, e: nat)
    requires ptr > 0
    ensures var c := ptr + (Exp2(e) - ptr % Exp2(e)); ptr < c <= ptr + Exp2(e) && Aligned(c, e)
  {
    var size := Exp2(e);
    var q := ptr / size;
    assert ptr == q * size + ptr % size;
    NextMultiple(q, size);
    assert Multiple((q + 1) * size, q + 1, e);
  }

  /** Twice the size of a block leaves room for an aligned one. */
  lemma BlockRoom(v: View, base: int, e: nat, chunk: int)
    requires base > 0 && Room(v, base, base + PageCountPadded(Exp2(e) * 2) * PAGE_SIZE)
    requires chunk == base + (Exp2(e) - base % Exp2(e))
    ensures Room(v, chunk, chunk + Exp2(e)) && Aligned(chunk, e) && 2 * Exp2(e) <= |v.used| * PAGE_SIZE
  {
    hide Room, Aligned;
    AlignUp(base, e);
    var to := base + PageCountPadded(Exp2(e) * 2) * PAGE_SIZE;
    RoomFits(v, base, to);
    RoomInside(v, base, to, chunk, chunk + Exp2(e));
  }

  lemma ExponentBound(e: nat, bytes: nat)
    requires 2 * Exp2(e) <= bytes < HEAP_LIMIT
    ensures e <= 29
  {
    if e > 29 {
      Exp2Monotone(30, e);
      Exp2Of30();
    }
  }

  lemma Exp2Of30()
    ensures Exp2(30) == 0x4000_0000
  {
    assert Exp2(10) == 1024;
    assert Exp2(20) == 0x10_0000;
  }

  /** Memory on pages that were free touches no piece. */
  lemma FreshApart(ps: Pieces, used: seq<bool>, heap: int, i: nat, count: nat, from: int, to: int)
    requires Separate(ps) && Held(ps, used, heap) && FreeRun(used, i, count)
    requires heap + i * PAGE_SIZE <= from < to <= heap + (i + count) * PAGE_SIZE
    ensures forall p :: p in ps ==> p + Extent(ps[p]) <= from || to <= p
  {
    forall p | p in ps
      ensures p + Extent(ps[p]) <= from || to <= p
    {
      assert PieceHeld(used, heap, p, ps[p]);
      var a := if p <= from then from else p;
      ExtentAtLeast16(ps[p]);
      if a < p + Extent(ps[p]) && a < to {
        TouchedPage(used, heap, p, p + Extent(ps[p]), a);
        FreePage(used, heap, i, count, a);
      }
    }
  }

  lemma TouchedPage(used: seq<bool>, heap: int, from: int, to: int, a: int)
    requires RunHeld(used, heap, from, to) && from <= a < to
    ensures 0 <= (a - heap) / PAGE_SIZE < |used| && used[(a - heap) / PAGE_SIZE]
  {
    var k := (a - heap) / PAGE_SIZE;
    assert heap + k * PAGE_SIZE <= a < heap + (k + 1) * PAGE_SIZE;
  }

  lemma FreePage(used: seq<bool>, heap: int, i: nat, count: nat, a: int)
    requires FreeRun(used, i, count) && heap + i * PAGE_SIZE <= a < heap + (i + count) * PAGE_SIZE
    ensures 0 <= (a - heap) / PAGE_SIZE < |used| && !used[(a - heap) / PAGE_SIZE]
  {
  }

  lemma HeldMore(ps: Pieces, used: seq<bool>, heap: int, i: nat, count: nat)
    requires Separate(ps) && Held(ps, used, heap) && i + count <= |used|
    ensures Held(ps, SetRun(used, i, count, true), heap)
  {
    var used' := SetRun(used, i, count, true);
    forall p | p in ps
      ensures PieceHeld(used', heap, p, ps[p])
    {
      assert PieceHeld(used, heap, p, ps[p]);
    }
  }

  lemma RunIsHeld(used: seq<bool>, heap: int, i: nat, count: nat, from: int, to: int)
    requires i + count <= |used| && heap + i * PAGE_SIZE <= from <= to <= heap + (i + count) * PAGE_SIZE
    ensures RunHeld(SetRun(used, i, count, true), heap, from, to)
  {
  }

  /** A range of addresses that no piece touches, on pages that are in use. */
  ghost predicate Room(v: View, from: int, to: int) {
    && 0 < from < to && RunHeld(v.used, v.heap, from, to)
    && ClearOf(v.ps, from, to)
  }

  /** Pages taken from the page allocator are room for new pieces. */
  lemma RoomMade(v: View, i: nat, count: nat) returns (v': View)
    requires Sound(v, 0) && FreeRun(v.used, i, count) && v.heap > 0 && count > 0
    ensures v' == v.(used := SetRun(v.used, i, count, true))
    ensures Sound(v', 0) && Room(v', v.heap + i * PAGE_SIZE, v.heap + (i + count) * PAGE_SIZE)
  {
    var from, to := v.heap + i * PAGE_SIZE, v.heap + (i + count) * PAGE_SIZE;
    FreshApart(v.ps, v.used, v.heap, i, count, from, to);
    HeldMore(v.ps, v.used, v.heap, i, count);
    RunIsHeld(v.used, v.heap, i, count, from, to);
    v' := v.(used := SetRun(v.used, i, count, true));
  }

  lemma RoomInside(v: View, from: int, to: int, a: int, b: int)
    requires Room(v, from, to) && from <= a < b <= to
    ensures Room(v, a, b)
  {
    RunInside(v.used, v.heap, from, to, a, b);
  }

  lemma RunInside(used: seq<bool>, heap: int, from: int, to: int, a: int, b: int)
    requires RunHeld(used, heap, from, to) && from <= a <= b <= to
    ensures RunHeld(used, heap, a, b)
  {
  }

  /** Room lies inside the heap. */
  lemma RoomFits(v: View, from: int, to: int)
    requires Room(v, from, to)
    ensures to - from <= |v.used| * PAGE_SIZE
  {
  }

  lemma RoomIsNew(v: View, from: int, to: int)
    requires Room(v, from, to) && Separate(v.ps)
    ensures from !in v.ps
  {
    if from in v.ps {
      ExtentAtLeast16(v.ps[from]);
    }
  }

  lemma HeldPlus(ps: Pieces, used: seq<bool>, heap: int, p: int, pc: Piece)
    requires Separate(ps) && Held(ps, used, heap) && Sized(pc) && PieceHeld(used, heap, p, pc) && Separate(ps[p := pc])
    ensures Held(ps[p := pc], used, heap)
  {
    var ps' := ps[p := pc];
    forall q | q in ps'
      ensures PieceHeld(used, heap, q, ps'[q])
    {
      if q != p {
        assert PieceHeld(used, heap, q, ps[q]);
      }
    }
  }

  /** A new block fills its room. */
  lemma BlockSound(v: View, e: nat, chunk: int)
    requires Sound(v, 0) && MIN_ORDER <= e < TZL_SIZE && v.lists[e] == [] && Aligned(chunk, e)
    requires Room(v, chunk, chunk + Exp2(e)) && forall c :: c in v.bs ==> v.bs[c] < e
    ensures chunk !in v.ps && e < |v.tzl|
    ensures Sound(NewBlockView(v, e, chunk), 0)
  {
    RoomIsNew(v, chunk, chunk + Exp2(e));
    NewBlockTiled(v.ps, v.bs, chunk, e);
    BlockStored(v, e, chunk);
    BlockCoalesced(v.ps, v.bs, chunk, e);
    HeldPlus(v.ps, v.used, v.heap, chunk, FreeMedium(e));
  }

  /** A large piece fills its room. */
  lemma LargeSound(v: View, p: int, size: nat) returns (v': View)
    requires Sound(v, 0) && size >= MARK_SIZE && (p - v.heap) % PAGE_SIZE == 0
    requires Room(v, p, p + PageCountPadded(size) * PAGE_SIZE)
    ensures p !in v.ps
    ensures v' == v.(ps := v.ps[p := LiveLarge(size)], m := WriteMarks(v.m, p, size, Magic(p, MEM_LARGE)))
    ensures Sound(v', 0)
  {
    var pc, to := LiveLarge(size), p + PageCountPadded(size) * PAGE_SIZE;
    var m' := WriteMarks(v.m, p, size, Magic(p, MEM_LARGE));
    RoomIsNew(v, p, to);
    AddTiled(v.ps, v.bs, p, pc);
    HeldPlus(v.ps, v.used, v.heap, p, pc);
    MarksWritten(v.m, p, size, Magic(p, MEM_LARGE));
    MarksInside(v.m, p, size, Magic(p, MEM_LARGE));
    StoredApart(v.m, m', v.ps, v.tzl, v.lists, v.chunkpool, v.pool, p, to);
    v' := v.(ps := v.ps[p := pc], m := m');
    LargeStored(v.(m := m'), p, pc);
  }

  /** A large live piece comes or goes: it is in no list. */
  lemma LargeStored(v: View, p: int, pc: Piece)
    requires Listed(v.ps, v.lists) && Pooled(v.ps, v.pool) && Stored(v.m, v.ps, v.tzl, v.lists, v.chunkpool, v.pool)
    requires p !in v.ps && pc.LiveLarge? && PieceMarked(v.m, p, pc) && Coalesced(v.ps)
    ensures var ps' := v.ps[p := pc];
            && Listed(ps', v.lists) && Pooled(ps', v.pool) && Stored(v.m, ps', v.tzl, v.lists, v.chunkpool, v.pool)
            && Coalesced(ps')
  {
    var ps' := v.ps[p := pc];
    forall q | q in ps'
      ensures PieceMarked(v.m, q, ps'[q])
    {
      if q != p {
        assert PieceMarked(v.m, q, v.ps[q]);
      }
    }
    forall q, r | q in ps' && r in ps'
      ensures Paired(ps', q, r) ==> Paired(v.ps, q, r)
    {
    }
  }

  /** Giving the pages of a large piece back leaves all other pieces on pages in use. */
  lemma ReleaseLargeSound(v: View, p: int) returns (v': View)
    requires Sound(v, 0) && p in v.ps && v.ps[p].LiveLarge?
    ensures var i, count := (p - v.heap) / PAGE_SIZE, PageCountPadded(v.ps[p].size);
            && v.ps[p].size > 0 && p >= v.heap && 0 <= i && i + count <= |v.used|
            && v' == v.(ps := v.ps - {p}, used := SetRun(v.used, i, count, false))
    ensures Sound(v', 0)
  {
    assert PieceHeld(v.used, v.heap, p, v.ps[p]);
    var i, count := (p - v.heap) / PAGE_SIZE, PageCountPadded(v.ps[p].size);
    v' := v.(ps := v.ps - {p}, used := SetRun(v.used, i, count, false));
    DropTiled(v.ps, v.bs, p);
    LargeDropped(v, p);
    forall q | q in v'.ps
      ensures PieceHeld(v'.used, v.heap, q, v'.ps[q])
    {
      assert PieceHeld(v.used, v.heap, q, v.ps[q]);
      Between(v.ps, p, q);
      ExtentAtLeast16(v.ps[q]);
      RunKept(v.used, v.heap, i, count, q, q + Extent(v.ps[q]));
    }
  }

  lemma LargeDropped(v: View, p: int)
    requires Listed(v.ps, v.lists) && Pooled(v.ps, v.pool) && Stored(v.m, v.ps, v.tzl, v.lists, v.chunkpool, v.pool)
    requires p in v.ps && v.ps[p].LiveLarge? && Coalesced(v.ps)
    ensures var ps' := v.ps - {p};
            && Listed(ps', v.lists) && Pooled(ps', v.pool) && Stored(v.m, ps', v.tzl, v.lists, v.chunkpool, v.pool)
            && Coalesced(ps')
  {
    var ps' := v.ps - {p};
    forall q | q in ps'
      ensures PieceMarked(v.m, q, ps'[q])
    {
      assert PieceMarked(v.m, q, v.ps[q]);
    }
    forall q, r | q in ps' && r in ps'
      ensures Paired(ps', q, r) ==> Paired(v.ps, q, r)
    {
    }
  }

  lemma RunKept(used: seq<bool>, heap: int, i: nat, count: nat, from: int, to: int)
    requires RunHeld(used, heap, from, to) && i + count <= |used|
    requires to <= heap + i * PAGE_SIZE || heap + (i + count) * PAGE_SIZE <= from
    ensures RunHeld(SetRun(used, i, count, false), heap, from, to)
  {
  }

  lemma BlockStored(v: View, e: nat, chunk: int)
    requires Separate(v.ps) && Listed(v.ps, v.lists) && Pooled(v.ps, v.pool)
    requires Stored(v.m, v.ps, v.tzl, v.lists, v.chunkpool, v.pool)
    requires MIN_ORDER <= e < TZL_SIZE && v.lists[e] == [] && chunk !in v.ps && chunk > 0
    requires forall p :: p in v.ps ==> p + Extent(v.ps[p]) <= chunk || chunk + Exp2(e) <= p
    ensures var ps', lists', m' := v.ps[chunk := FreeMedium(e)], v.lists[e := [chunk]], Write32(v.m, chunk, 0);
            Stored(m', ps', v.tzl[e := chunk], lists', v.chunkpool, v.pool) && Listed(ps', lists')
                && Pooled(ps', v.pool)
  {
    var m' := Write32(v.m, chunk, 0);
    ExtentAtLeast16(FreeMedium(e));
    WriteSame(v.m, chunk, 0, chunk, chunk + Exp2(e));
    StoredApart(v.m, m', v.ps, v.tzl, v.lists, v.chunkpool, v.pool, chunk, chunk + Exp2(e));
    assert Linked(m', v.tzl[e], v.lists[e]);
    PushLinked(m', 0, [], chunk);
    assert [chunk] + [] == [chunk];
    BlockListed(v.ps, v.lists, v.pool, e, chunk);
    MarksRetagged(m', v.ps, chunk, FreeMedium(e));
  }

  lemma BlockListed(ps: Pieces, lists: seq<seq<int>>, pool: seq<int>, e: nat, chunk: int)
    requires Listed(ps, lists) && Pooled(ps, pool) && e < TZL_SIZE && lists[e] == [] && chunk !in ps
    ensures var ps' := ps[chunk := FreeMedium(e)]; Listed(ps', lists[e := [chunk]]) && Pooled(ps', pool)
  {
  }

  /** A block larger than all others has no free buddy. */
  lemma BlockCoalesced(ps: Pieces, bs: Blocks, b: int, e: nat)
    requires Tiled(ps, bs) && Coalesced(ps) && b !in ps && b > 0 && forall c :: c in bs ==> bs[c] < e
    ensures Coalesced(ps[b := FreeMedium(e)])
  {
    var ps' := ps[b := FreeMedium(e)];
    forall p, q | p in ps' && q in ps'
      ensures !Paired(ps', p, q)
    {
      BlockUnpaired(ps, bs, b, e, p, q);
    }
  }

  lemma BlockUnpaired(ps: Pieces, bs: Blocks, b: int, e: nat, p: int, q: int)
    requires Tiled(ps, bs) && Coalesced(ps) && b !in ps && b > 0 && forall c :: c in bs ==> bs[c] < e
    ensures !Paired(ps[b := FreeMedium(e)], p, q)
  {
    OrdersBelow(ps, bs, e, p);
    OrdersBelow(ps, bs, e, q);
    assert !Paired(ps, p, q);
    if p == b && b == q {
      BuddyDiffers(b, e);
    }
  }

  lemma OrdersBelow(ps: Pieces, bs: Blocks, e: nat, p: int)
    requires Tiled(ps, bs) && forall c :: c in bs ==> bs[c] < e
    ensures p in ps && IsMedium(ps[p]) ==> ps[p].order < e
  {
    if p in ps && IsMedium(ps[p]) {
      assert InBlock(ps, bs, p);
      var c :| Inside(bs, c, p, ps[p].order);
    }
  }

  lemma PopSound(v: View, i: nat) returns (v': View)
    requires i < TZL_SIZE && |v.lists| == TZL_SIZE && v.lists[i] != [] && Sound(v, v.lists[i][0])
    ensures var p := v.lists[i][0];
            && p in v.ps && v.ps[p] == FreeMedium(i) && v.tzl[i] == p && p in v.m
            && v' == v.(ps := v.ps[p := Hole(i)], lists := v.lists[i := v.lists[i][1..]], tzl := v.tzl[i := v.m[p]])
    ensures Sound(v', 0)
  {
    var p := v.lists[i][0];
    PopLinked(v.m, v.tzl[i], v.lists[i]);
    PopListed(v.ps, v.lists, i);
    PopStored(v.m, v.ps, v.tzl, v.lists, v.chunkpool, v.pool, i);
    RetagTiled(v.ps, v.bs, p, Hole(i));
    RetagHeld(v.ps, v.used, v.heap, p, Hole(i));
    PopCoalesced(v.ps, p, i);
    v' := v.(ps := v.ps[p := Hole(i)], lists := v.lists[i := v.lists[i][1..]], tzl := v.tzl[i := v.m[p]]);
  }

  lemma PushSound(v: View, i: nat, p: int) returns (v': View)
    requires Sound(v, 0) && i < TZL_SIZE && p in v.ps && v.ps[p] == Hole(i)
    requires !(Buddy(p, i) in v.ps && v.ps[Buddy(p, i)] == FreeMedium(i))
    ensures v' == v.(ps := v.ps[p := FreeMedium(i)], lists := v.lists[i := [p] + v.lists[i]],
                     m := Write32(v.m, p, v.tzl[i]), tzl := v.tzl[i := p])
    ensures Sound(v', 0)
  {
    var m' := Write32(v.m, p, v.tzl[i]);
    ExtentAtLeast16(v.ps[p]);
    WriteInPiece(v.m, v.ps, p, p, v.tzl[i]);
    StoredKept(v.m, m', v.ps, v.tzl, v.lists, v.chunkpool, v.pool, p);
    PushStored(m', v.ps, v.tzl, v.lists, v.chunkpool, v.pool, i, p);
    RetagTiled(v.ps, v.bs, p, FreeMedium(i));
    RetagHeld(v.ps, v.used, v.heap, p, FreeMedium(i));
    PushCoalesced(v.ps, v.bs, p, i);
    v' := v.(ps := v.ps[p := FreeMedium(i)], lists := v.lists[i := [p] + v.lists[i]],
             m := Write32(v.m, p, v.tzl[i]), tzl := v.tzl[i := p]);
  }

  lemma SplitSound(v: View, i: nat, p: int, h: int) returns (v': View)
    requires Sound(v, 0) && MIN_ORDER <= i < TZL_SIZE && p in v.ps && v.ps[p] == Hole(i + 1) && h == p + Exp2(i)
    ensures h !in v.ps
    ensures v' == v.(ps := v.ps[p := FreeMedium(i)][h := FreeMedium(i)], lists := v.lists[i := [p, h] + v.lists[i]],
                     m := Write32(Write32(v.m, p, h), h, v.tzl[i]), tzl := v.tzl[i := p])
    ensures Sound(v', p)
  {
    var m2 := SplitStores(v, i, p, h);
    SplitTiled(v.ps, v.bs, p, i);
    SplitHeld(v.ps, v.used, v.heap, p, i);
    SplitCoalesced(v.ps, v.bs, p, i);
    SplitListed(v.ps, v.lists, v.pool, i, p);
    v' := v.(ps := v.ps[p := FreeMedium(i)][h := FreeMedium(i)], lists := v.lists[i := [p, h] + v.lists[i]],
             m := m2, tzl := v.tzl[i := p]);
    assert v'.ps == SplitPiece(v.ps, p, i);
  }

  lemma TwoWords(m: Memory, a: int, w: int, b: int, x: int)
    requires a + 4 <= b
    ensures var m2 := Write32(Write32(m, a, w), b, x); WordAt(m2, a, w) && WordAt(m2, b, x)
  {
  }

  lemma SplitStores(v: View, i: nat, p: int, h: int) returns (m2: Memory)
    requires Separate(v.ps) && Listed(v.ps, v.lists) && Pooled(v.ps, v.pool)
    requires Stored(v.m, v.ps, v.tzl, v.lists, v.chunkpool, v.pool)
    requires MIN_ORDER <= i < TZL_SIZE && p in v.ps && v.ps[p] == Hole(i + 1) && h == p + Exp2(i)
    ensures m2 == Write32(Write32(v.m, p, h), h, v.tzl[i])
    ensures Stored(m2, SplitPiece(v.ps, p, i), v.tzl[i := p], v.lists[i := [p, h] + v.lists[i]], v.chunkpool, v.pool)
  {
    var m1 := Write32(v.m, p, h);
    m2 := Write32(m1, h, v.tzl[i]);
    ExtentAtLeast16(Hole(i));
    WriteInPiece(v.m, v.ps, p, p, h);
    WriteInPiece(m1, v.ps, p, h, v.tzl[i]);
    SameTrans(v.m, m1, m2, p, p + Extent(v.ps[p]));
    StoredKept(v.m, m2, v.ps, v.tzl, v.lists, v.chunkpool, v.pool, p);
    TwoWords(v.m, p, h, h, v.tzl[i]);
    SplitStored(m2, v.ps, v.tzl, v.lists, v.chunkpool, v.pool, i, p);
  }

  lemma WriteInPiece(m: Memory, ps: Pieces, p: int, a: int, w: int)
    requires Separate(ps) && p in ps && p <= a && a + 4 <= p + Extent(ps[p])
    ensures SameOutside(m, Write32(m, a, w), p, p + Extent(ps[p]))
  {
    WriteSame(m, a, w, p, p + Extent(ps[p]));
  }

  lemma PushListed(ps: Pieces, lists: seq<seq<int>>, i: nat, p: int)
    requires Listed(ps, lists) && i < TZL_SIZE && p in ps && ps[p] == Hole(i)
    ensures Listed(ps[p := FreeMedium(i)], lists[i := [p] + lists[i]])
  {
    assert p !in lists[i];
  }

  lemma PushStored(m: Memory, ps: Pieces, tzl: seq<int>, lists: seq<seq<int>>, chunkpool: int, pool: seq<int>, i: nat,
      p: int)
    requires Stored(m, ps, tzl, lists, chunkpool, pool) && Listed(ps, lists) && Pooled(ps, pool)
    requires i < TZL_SIZE && p in ps && p > 0 && ps[p] == Hole(i) && WordAt(m, p, tzl[i])
    ensures Stored(m, ps[p := FreeMedium(i)], tzl[i := p], lists[i := [p] + lists[i]], chunkpool, pool)
    ensures Listed(ps[p := FreeMedium(i)], lists[i := [p] + lists[i]]) && Pooled(ps[p := FreeMedium(i)], pool)
  {
    PushLinked(m, tzl[i], lists[i], p);
    PushListed(ps, lists, i, p);
    var ps' := ps[p := FreeMedium(i)];
    forall q | q in ps'
      ensures PieceMarked(m, q, ps'[q])
    {
      if q != p {
        assert PieceMarked(m, q, ps[q]);
      }
    }
  }

  lemma PushCoalesced(ps: Pieces, bs: Blocks, p: int, i: nat)
    requires Tiled(ps, bs) && Coalesced(ps) && p in ps && ps[p] == Hole(i)
    requires !(Buddy(p, i) in ps && ps[Buddy(p, i)] == FreeMedium(i))
    ensures Coalesced(ps[p := FreeMedium(i)])
  {
    var ps' := ps[p := FreeMedium(i)];
    assert InBlock(ps, bs, p);
    BuddyFacts(p, i);
    forall q, r | Paired(ps', q, r)
      ensures q == 0 || r == 0
    {
      assert InBlock(ps, bs, q);
      BuddyFacts(q, ps'[q].order);
      if q != p && r != p {
        assert Paired(ps, q, r);
      }
    }
  }

  lemma SplitHeld(ps: Pieces, used: seq<bool>, heap: int, p: int, k: nat)
    requires Separate(ps) && Held(ps, used, heap) && p in ps && ps[p] == Hole(k + 1) && Separate(SplitPiece(ps, p, k))
    ensures Held(SplitPiece(ps, p, k), used, heap)
  {
    var ps' := SplitPiece(ps, p, k);
    assert PieceHeld(used, heap, p, ps[p]);
    forall q | q in ps'
      ensures PieceHeld(used, heap, q, ps'[q])
    {
      if q != p && q != p + Exp2(k) {
        assert PieceHeld(used, heap, q, ps[q]);
      }
    }
  }

  lemma SplitListed(ps: Pieces, lists: seq<seq<int>>, pool: seq<int>, i: nat, p: int)
    requires Listed(ps, lists) && Pooled(ps, pool)
    requires i < TZL_SIZE && p in ps && ps[p] == Hole(i + 1) && p + Exp2(i) !in ps
    ensures Listed(SplitPiece(ps, p, i), lists[i := [p, p + Exp2(i)] + lists[i]]) && Pooled(SplitPiece(ps, p, i), pool)
  {
    var h := p + Exp2(i);
    assert h !in lists[i] && p !in lists[i];
  }

  lemma SplitStored(m: Memory, ps: Pieces, tzl: seq<int>, lists: seq<seq<int>>, chunkpool: int, pool: seq<int>, i: nat,
      p: int)
    requires Stored(m, ps, tzl, lists, chunkpool, pool)
    requires i < TZL_SIZE && p in ps && p > 0 && ps[p] == Hole(i + 1)
    requires WordAt(m, p, p + Exp2(i)) && WordAt(m, p + Exp2(i), tzl[i])
    ensures Stored(m, SplitPiece(ps, p, i), tzl[i := p], lists[i := [p, p + Exp2(i)] + lists[i]], chunkpool, pool)
  {
    var h := p + Exp2(i);
    PushLinked(m, tzl[i], lists[i], h);
    PushLinked(m, h, [h] + lists[i], p);
    assert [p, h] + lists[i] == [p] + ([h] + lists[i]);
    var ps' := SplitPiece(ps, p, i);
    forall q | q in ps'
      ensures PieceMarked(m, q, ps'[q])
    {
      if q != p && q != h {
        assert PieceMarked(m, q, ps[q]);
      }
    }
  }

  lemma PopListed(ps: Pieces, lists: seq<seq<int>>, i: nat)
    requires Listed(ps, lists) && i < TZL_SIZE && lists[i] != []
    ensures lists[i][0] in ps && ps[lists[i][0]] == FreeMedium(i)
    ensures Listed(ps[lists[i][0] := Hole(i)], lists[i := lists[i][1..]])
  {
    var s := lists[i];
    var p := s[0];
    assert p in s;
    assert s == [p] + s[1..];
    assert p !in s[1..];
    var ps', lists' := ps[p := Hole(i)], lists[i := s[1..]];
    forall j, q | 0 <= j < TZL_SIZE && q in lists'[j]
      ensures q in ps' && ps'[q] == FreeMedium(j)
    {
      assert q in lists[j] && ps[q] == FreeMedium(j) && ps[p] == FreeMedium(i);
    }
  }

  lemma PopStored(m: Memory, ps: Pieces, tzl: seq<int>, lists: seq<seq<int>>, chunkpool: int, pool: seq<int>, i: nat)
    requires Stored(m, ps, tzl, lists, chunkpool, pool) && i < TZL_SIZE && lists[i] != []
    ensures var p := lists[i][0];
            p in m && Stored(m, ps[p := Hole(i)], tzl[i := m[p]], lists[i := lists[i][1..]], chunkpool, pool)
  {
    PopLinked(m, tzl[i], lists[i]);
    var p := lists[i][0];
    var ps' := ps[p := Hole(i)];
    forall q | q in ps'
      ensures PieceMarked(m, q, ps'[q])
    {
      if q != p {
        assert PieceMarked(m, q, ps[q]);
      }
    }
  }

  lemma RetagHeld(ps: Pieces, used: seq<bool>, heap: int, p: int, pc: Piece)
    requires Separate(ps) && Held(ps, used, heap) && p in ps && Sized(pc) && Extent(pc) <= Extent(ps[p])
    requires pc.LiveLarge? ==> ps[p].LiveLarge?
    requires Separate(ps[p := pc])
    ensures Held(ps[p := pc], used, heap)
  {
    var ps' := ps[p := pc];
    forall q | q in ps'
      ensures PieceHeld(used, heap, q, ps'[q])
    {
      assert PieceHeld(used, heap, q, ps[q]);
    }
  }

  lemma PopCoalesced(ps: Pieces, p: int, i: nat)
    requires CoalescedBut(ps, p)
    ensures Coalesced(ps[p := Hole(i)])
  {
    var ps' := ps[p := Hole(i)];
    forall q, r | Paired(ps', q, r)
      ensures false
    {
      assert Paired(ps, q, r);
    }
  }

  // ----- the program's view -----

  /** struct mem_alloc. */
  datatype Alloc = Alloc(ptr: int, kind: int, size: int)

  /** The four words that mem_mark_check reads are known. */
  ghost predicate Readable(m: Memory, p: int) {
    p in m && p + 4 in m && p + m[p] - 8 in m && p + m[p] - 4 in m
  }

  ghost function CheckedMarks(m: Memory, p: int): Option<Alloc>
    requires Readable(m, p)
  {
    if m[p + m[p] - 8] == m[p + 4] && m[p + m[p] - 4] == m[p] then Some(Alloc(p, m[p + 4] % 4, m[p])) else None
  }

  /** A freed block is a small chunk again, a medium hole of its own order merged into the free lists, or pages. */
  ghost predicate BackInClass(ps: Pieces, ps': Pieces, p: int)
    requires p in ps
  {
    match ps[p]
    case LiveSmall(_) => ps' == ps[p := FreeSmall]
    case LiveMedium(order, _) => GaveBack(ps[p := Hole(order)], ps', p)
    case LiveLarge(_) => ps' == ps - {p}
    case _ => false
  }

  /** The class kalloc picks for a size. */
  function ClassOf(size: nat): nat {
    if size >= LARGEALLOC then MEM_LARGE else if size <= SMALLALLOC then MEM_SMALL else MEM_MEDIUM
  }

  /** A live piece of the class of a request, with room for it between the marks. */
  ghost predicate GoodFor(pc: Piece, size: nat) {
    IsLive(pc) && KindOf(pc) == ClassOf(size) && pc.size >= size + MARK_SIZE
  }

  /** The check recovers the class and the marked size of a live block. */
  lemma LiveMarks(v: View, p: int)
    requires Sound(v, 0) && p in v.ps && IsLive(v.ps[p])
    ensures Readable(v.m, p)
    ensures CheckedMarks(v.m, p) == Some(Alloc(p, KindOf(v.ps[p]), v.ps[p].size))
  {
    assert PieceMarked(v.m, p, v.ps[p]);
    MagicKind(HashPtr(p), KindOf(v.ps[p]));
  }

  lemma MagicKind(h: int, kind: nat)
    requires kind < 4
    ensures (h - h % 4 + kind) % 4 == kind
  {
    assert h - h % 4 == 4 * (h / 4);
  }

  /** The addresses a program may use: between the marks of one of its blocks. */
  ghost predicate InPayload(lives: Pieces, p: int, a: int)
    requires p in lives && IsLive(lives[p])
  {
    p + 8 <= a < p + lives[p].size - 8
  }

  /** The bytes the allocator keeps for itself: the marks of live pieces and the links of free ones. */
  ghost predicate Reserved(ps: Pieces, q: int, a: int)
    requires q in ps
  {
    if IsLive(ps[q]) then q <= a < q + 8 || q + ps[q].size - 8 <= a < q + ps[q].size
    else q <= a < q + 4
  }

  /** Payloads of different blocks are disjoint, and hold no mark and no link. */
  lemma PayloadsPrivate(v: View, p: int, q: int, a: int)
    requires Sound(v, 0) && p in v.ps && IsLive(v.ps[p]) && q in v.ps && InPayload(v.ps, p, a)
    ensures !Reserved(v.ps, q, a)
    ensures q != p && IsLive(v.ps[q]) ==> !InPayload(v.ps, q, a)
  {
    ExtentHoldsSize(v.ps[p]);
    ExtentAtLeast16(v.ps[q]);
    if q != p {
      Between(v.ps, p, q);
      if IsLive(v.ps[q]) {
        ExtentHoldsSize(v.ps[q]);
      }
    }
  }

  /** A large size that does not fit in a word with its marks wraps around, and then the tail mark lies before the
      payload. */
  lemma LargeSizeWraps(size: nat, p: int)
    requires LARGEALLOC <= size < WORD
    ensures var marked := (size + MARK_SIZE) % WORD; marked < size + MARK_SIZE <==> size + MARK_SIZE >= WORD
    ensures var marked := (size + MARK_SIZE) % WORD; p + marked - 8 < p + 8 <==> size + MARK_SIZE >= WORD
  {
  }

  lemma StoreByteSound(v: View, p: int, a: int) returns (v': View)
    requires Sound(v, 0) && p in v.ps && IsLive(v.ps[p]) && InPayload(v.ps, p, a)
    ensures v' == v.(m := WriteByte(v.m, a)) && Sound(v', 0)
  {
    var m' := WriteByte(v.m, a);
    v' := v.(m := m');
    forall i | 0 <= i < TZL_SIZE
      ensures Linked(m', v.tzl[i], v.lists[i])
    {
      ByteOffList(v, p, a, v.tzl[i], v.lists[i]);
    }
    ByteOffList(v, p, a, v.chunkpool, v.pool);
    forall q | q in v.ps
      ensures PieceMarked(m', q, v.ps[q])
    {
      ByteOffMarks(v, p, a, q);
    }
  }

  lemma ByteOffMarks(v: View, p: int, a: int, q: int)
    requires Separate(v.ps) && p in v.ps && IsLive(v.ps[p]) && q in v.ps && InPayload(v.ps, p, a)
    requires PieceMarked(v.m, q, v.ps[q])
    ensures PieceMarked(WriteByte(v.m, a), q, v.ps[q])
  {
    ExtentHoldsSize(v.ps[p]);
    Between(v.ps, p, q);
    if IsLive(v.ps[q]) {
      ExtentHoldsSize(v.ps[q]);
    }
  }

  lemma ByteOffList(v: View, p: int, a: int, head: int, s: seq<int>)
    requires Separate(v.ps) && p in v.ps && IsLive(v.ps[p]) && InPayload(v.ps, p, a)
    requires Linked(v.m, head, s) && forall x :: x in s ==> x in v.ps && !IsLive(v.ps[x])
    ensures Linked(WriteByte(v.m, a), head, s)
  {
    ExtentHoldsSize(v.ps[p]);
    var m' := WriteByte(v.m, a);
    forall x | x in s && x in v.m
      ensures x in m' && m'[x] == v.m[x]
    {
      ExtentAtLeast16(v.ps[x]);
      Between(v.ps, p, x);
    }
    LinkedKept(v.m, m', head, s);
  }

  lemma LiveAdded(ps: Pieces, p: int, pc: Piece)
    requires p !in ps && IsLive(pc)
    ensures p !in LivePieces(ps)
    ensures LivePieces(ps[p := pc]) == LivePieces(ps)[p := pc]
    ensures NoHoles(ps) ==> NoHoles(ps[p := pc])
  {
  }

  lemma LiveDropped(ps: Pieces, p: int)
    ensures LivePieces(ps - {p}) == LivePieces(ps) - {p}
    ensures NoHoles(ps) ==> NoHoles(ps - {p})
  {
  }

  lemma ListsAreBlocks(ps: Pieces, bs: Blocks, lists: seq<seq<int>>, k: nat)
    requires Tiled(ps, bs) && Coalesced(ps) && Listed(ps, lists) && k < TZL_SIZE
    requires forall q :: q in ps && IsMedium(ps[q]) ==> ps[q].FreeMedium?
    ensures forall b :: b in bs && bs[b] == k ==> lists[k] == [b]
    ensures lists[k] != [] ==> lists[k][0] in bs && bs[lists[k][0]] == k
  {
    AllFreeIsAllBlocks(ps, bs);
    forall b | b in bs && bs[b] == k
      ensures lists[k] == [b]
    {
      forall c | c in lists[k]
        ensures c == b
      {
        assert ps[c] == FreeMedium(k) && c in bs && bs[c] == k;
      }
      assert b in ps && b in lists[k];
      OnlyOne(lists[k], b);
    }
    if lists[k] != [] {
      var c := lists[k][0];
      assert c in lists[k];
      assert c in ps && ps[c] == FreeMedium(k);
    }
  }

  lemma OnlyOne(s: seq<int>, b: int)
    requires NoDups(s) && b in s && forall c :: c in s ==> c == b
    ensures s == [b]
  {
    assert s[0] in s && s[|s| - 1] in s;
    assert s[0] == b && s[|s| - 1] == b;
  }
}
