/** The kernel heap: buddy chunks, fixed small chunks and whole pages behind kalloc and kfree. */
module KernelHeap {
  import opened Integers
  import opened Options
  import opened Dyadic
  import opened Pages
  import opened KernelPieces
  import opened KernelMemory
  import opened KernelSound
  import opened KernelPlaces

  class Heap {
    const pages: PageAllocator
    // struct mem_arena and the heap's words
    var chunkpool: int
    var tzl: seq<int>
    var smallNext: nat
    var mediumNext: nat
    var mem: Memory
    // what they describe
    ghost var pieces: Pieces
    ghost var blocks: Blocks
    ghost var lists: seq<seq<int>>
    ghost var pool: seq<int>

    ghost function V(): View
      requires pages.Valid()
      reads this, pages, pages.bitmap
    {
      View(pieces, blocks, lists, pool, mem, tzl, chunkpool, pages.Used(), pages.memHeap)
    }

    ghost predicate Sizes()
      reads this, pages
    {
      && pages.Valid() && pages.pageCount * PAGE_SIZE < HEAP_LIMIT
      && BlockSizes(blocks, mediumNext, pages.pageCount * PAGE_SIZE)
      && SmallFits(smallNext, pages.pageCount * PAGE_SIZE)
    }

    /** The invariant, with `but` possibly next to a free buddy. */
    ghost predicate Inv(but: int)
      reads this, pages, pages.bitmap
    {
      Sizes() && Sound(V(), but)
    }

    ghost predicate Valid()
      reads this, pages, pages.bitmap
    {
      Inv(0) && NoHoles(pieces)
    }

    ghost function Lives(): Pieces
      reads this
    {
      LivePieces(pieces)
    }

    constructor (pages: PageAllocator)
      requires pages.Valid() && pages.pageCount * PAGE_SIZE < HEAP_LIMIT
      ensures Valid() && Lives() == map[] && this.pages == pages
    {
      this.pages := pages;
      chunkpool, smallNext, mediumNext, mem := 0, 0, 0, map[];
      tzl := seq(TZL_SIZE, i => 0);
      pieces, blocks, pool := map[], map[], [];
      lists := seq(TZL_SIZE, i => []);
    }

    /** Take the first chunk off a buddy list. */
    method PopMedium(index: nat) returns (chunk: int)
      requires index < TZL_SIZE && |lists| == TZL_SIZE && lists[index] != [] && Inv(lists[index][0])
      modifies this`tzl, this`lists, this`pieces
      ensures Inv(0) && chunk == old(lists)[index][0] && chunk in old(pieces) && old(pieces)[chunk] == FreeMedium(index)
      ensures chunk > 0 && pieces == old(pieces)[chunk := Hole(index)]
      ensures lists == old(lists)[index := old(lists)[index][1..]]
    {
      ghost var v' := PopSound(V(), index);
      chunk := tzl[index];
      tzl := tzl[index := mem[chunk]];
      lists := lists[index := lists[index][1..]];
      pieces := pieces[chunk := Hole(index)];
      assert V() == v';
    }

    /** Put a hole in front of a buddy list; its buddy must not be free. */
    method PushMedium(chunk: int, index: nat)
      requires Inv(0) && index < TZL_SIZE && chunk in pieces && pieces[chunk] == Hole(index)
      requires !(Buddy(chunk, index) in pieces && pieces[Buddy(chunk, index)] == FreeMedium(index))
      modifies this`tzl, this`lists, this`pieces, this`mem
      ensures Inv(0) && pieces == old(pieces)[chunk := FreeMedium(index)]
      ensures |old(lists)| == TZL_SIZE && lists == old(lists)[index := [chunk] + old(lists)[index]]
    {
      ghost var v' := PushSound(V(), index, chunk);
      mem := Write32(mem, chunk, tzl[index]);
      tzl := tzl[index := chunk];
      lists := lists[index := [chunk] + lists[index]];
      pieces := pieces[chunk := FreeMedium(index)];
      assert V() == v';
    }

    /** Thread the two halves of a hole onto the list below. */
    method SplitHole(chunk0: int, index: nat)
      requires Inv(0) && MIN_ORDER <= index < TZL_SIZE - 1 && chunk0 in pieces && pieces[chunk0] == Hole(index + 1)
      modifies this`tzl, this`lists, this`pieces, this`mem
      ensures |lists| == TZL_SIZE && lists[index] != [] && lists[index][0] == chunk0 && Inv(chunk0)
      ensures forall p :: p in old(pieces) && p != chunk0 ==> p in pieces && pieces[p] == old(pieces)[p]
      ensures forall p :: p in pieces && p !in old(pieces) - {chunk0} ==> pieces[p].FreeMedium?
      ensures lists == old(lists)[index := [chunk0, chunk0 + Exp2(index)] + old(lists)[index]]
    {
      var size := Exp2(index);
      var chunk1 := chunk0 + size;
      ghost var v' := SplitSound(V(), index, chunk0, chunk1);
      mem := Write32(mem, chunk0, chunk1);
      mem := Write32(mem, chunk1, tzl[index]);
      tzl := tzl[index := chunk0];
      lists := lists[index := [chunk0, chunk1] + lists[index]];
      pieces := pieces[chunk0 := FreeMedium(index)][chunk1 := FreeMedium(index)];
      assert V() == v';
    }

    /** page_alloc, seen as room for new pieces. */
    method GetPages(size: nat) returns (base: int)
      requires Inv(0) && size > 0
      modifies pages.bitmap
      ensures Inv(0) && base >= 0 && (base == 0 ==> V() == old(V())) && V().(used := old(V()).used) == old(V())
      ensures base != 0 ==>
          Room(V(), base, base + PageCountPadded(size) * PAGE_SIZE) && (base - pages.memHeap) % PAGE_SIZE == 0
      ensures PageAt(old(V()), pages.Used(), pages.metaPages, size, base)
    {
      hide Sound, Room;
      ghost var v := V();
      base := pages.Alloc(size);
      if base != 0 {
        assert TakesRun(v, pages.Used(), pages.metaPages, PageCountPadded(size), base,
                        (base - pages.memHeap) / PAGE_SIZE);
        ghost var v' := RoomMade(v, (base - pages.memHeap) / PAGE_SIZE, PageCountPadded(size));
        assert V() == v';
      } else {
        assert V() == v;
      }
    }

    /** Record a new top block. */
    method InstallBlock(chunk: int)
      requires Sizes() && var e := FIRST_EXPONENT + mediumNext;
        e < |tzl| && e < |lists| && Sound(NewBlockView(V(), e, chunk), 0) && 2 * Exp2(e) <= pages.pageCount * PAGE_SIZE
      modifies this`tzl, this`lists, this`pieces, this`blocks, this`mem, this`mediumNext
      ensures Inv(0) && mediumNext == old(mediumNext) + 1
      ensures V() == NewBlockView(old(V()), FIRST_EXPONENT + old(mediumNext), chunk)
    {
      var e := FIRST_EXPONENT + mediumNext;
      ghost var v' := NewBlockView(V(), e, chunk);
      BlockSizesGrow(blocks, mediumNext, pages.pageCount * PAGE_SIZE, chunk);
      mediumNext, mem, tzl := mediumNext + 1, Write32(mem, chunk, 0), tzl[e := chunk];
      pieces, blocks, lists := v'.ps, v'.bs, v'.lists;
      assert V() == v';
    }

    /** mem_realloc_medium, and the empty link its caller stores. */
    method ReallocMedium() returns (size: int)
      requires Inv(0) && FIRST_EXPONENT + mediumNext < TZL_SIZE && V().lists[FIRST_EXPONENT + mediumNext] == []
      modifies this`tzl, this`lists, this`pieces, this`blocks, this`mem, this`mediumNext, pages.bitmap
      ensures Inv(0) && size >= 0
      ensures size == 0 ==> pieces == old(pieces) && mediumNext == old(mediumNext)
      ensures size > 0 ==> GainedFree(old(pieces), pieces, lists, FIRST_EXPONENT + old(mediumNext))
      ensures size == 0 ==> V() == old(V())
      ensures size > 0 ==> lists[FIRST_EXPONENT + old(mediumNext)] != []
      ensures var e := FIRST_EXPONENT + old(mediumNext);
              NewBlockAt(old(V()), pages.Used(), pages.metaPages, e, if size == 0 then 0 else lists[e][0])
    {
      hide Sound, Room, PageAt, NewBlockAt, GainedFree, LivePieces;
      var e := FIRST_EXPONENT + mediumNext;
      size := Exp2(e);
      var base := GetPages(size * 2);
      assert size * 2 == 2 * Exp2(e);
      NewBlockIs(old(V()), pages.Used(), pages.metaPages, e, base);
      if base == 0 {
        return 0;
      }
      var chunk := base + (size - base % size);
      ghost var v := V();
      TopOfList(v, e);
      BlockRoom(v, base, e, chunk);
      BlockSound(v, e, chunk);
      NewBlockGains(v, e, chunk);
      InstallBlock(chunk);
    }

    /** alloc_tzl_chunk: make sure the list of this order has a chunk, splitting larger ones or taking a new block. */
    method AllocTzlChunk(index: nat) returns (ok: bool)
      requires Inv(0) && MIN_ORDER <= index && (index <= FIRST_EXPONENT + 1 || index <= FIRST_EXPONENT + mediumNext)
      modifies this`tzl, this`lists, this`pieces, this`blocks, this`mem, this`mediumNext, pages.bitmap
      ensures !ok ==> Inv(0) && pieces == old(pieces)
      ensures ok ==> GainedFree(old(pieces), pieces, lists, index) && Inv(lists[index][0])
      ensures MediumAt(old(V()), pages.Used(), pages.metaPages, old(mediumNext), index, if ok then lists[index][0]
          else 0)
      ensures Nearest(old(lists), index) < TZL_SIZE ==> ok && blocks == old(blocks) && mediumNext == old(mediumNext)
      decreases if index < FIRST_EXPONENT + mediumNext then FIRST_EXPONENT + mediumNext - index else 0, 1
    {
      hide Sound, MediumAt;
      TopOfList(V(), index);
      if tzl[index] != 0 {
        MediumHere(V(), pages.metaPages, mediumNext, index);
        ok := true;
      } else if index >= FIRST_EXPONENT + mediumNext {
        ok := NewMedium(index);
      } else {
        ok := SplitHigher(index);
      }
    }

    /** A new block of exactly this order. */
    method NewMedium(index: nat) returns (ok: bool)
      requires Inv(0) && MIN_ORDER <= index && FIRST_EXPONENT + mediumNext <= index < TZL_SIZE && lists[index] == []
      requires index <= FIRST_EXPONENT + 1 || index <= FIRST_EXPONENT + mediumNext
      modifies this`tzl, this`lists, this`pieces, this`blocks, this`mem, this`mediumNext, pages.bitmap
      ensures !ok ==> Inv(0) && pieces == old(pieces)
      ensures ok ==> GainedFree(old(pieces), pieces, lists, index) && Inv(lists[index][0])
      ensures MediumAt(old(V()), pages.Used(), pages.metaPages, old(mediumNext), index, if ok then lists[index][0]
          else 0)
      ensures Nearest(old(lists), index) == TZL_SIZE
    {
      ghost var v, next := V(), mediumNext;
      NoneBeyond(v, mediumNext, pages.pageCount * PAGE_SIZE);
      hide Sound, MediumAt, NewBlockAt;
      mediumNext := index - FIRST_EXPONENT;
      assert V() == v;
      var size := ReallocMedium();
      ok := size != 0;
      MediumNew(v, pages.Used(), pages.metaPages, next, index, if ok then lists[index][0] else 0);
      if ok {
        SoundWeaker(V(), lists[index][0]);
      }
    }

    /** The first chunk of the next order, whatever serves that, is split. */
    method SplitHigher(index: nat) returns (ok: bool)
      requires Inv(0) && MIN_ORDER <= index < FIRST_EXPONENT + mediumNext && index < TZL_SIZE && lists[index] == []
      modifies this`tzl, this`lists, this`pieces, this`blocks, this`mem, this`mediumNext, pages.bitmap
      ensures !ok ==> Inv(0) && pieces == old(pieces)
      ensures ok ==> GainedFree(old(pieces), pieces, lists, index) && Inv(lists[index][0])
      ensures MediumAt(old(V()), pages.Used(), pages.metaPages, old(mediumNext), index, if ok then lists[index][0]
          else 0)
      ensures Nearest(old(lists), index) < TZL_SIZE ==> ok && blocks == old(blocks) && mediumNext == old(mediumNext)
      decreases FIRST_EXPONENT + mediumNext - index, 0
    {
      hide Sound, MediumAt;
      ghost var v, next := V(), mediumNext;
      ok := AllocTzlChunk(index + 1);
      MediumAbove(v, pages.Used(), pages.metaPages, next, index, if ok then lists[index + 1][0] else 0);
      if ok {
        var chunk0 := PopMedium(index + 1);
        SplitHole(chunk0, index);
      }
    }

    /** mem_mark_and_get_user_ptr: write both marks into a hole, which becomes live. */
    method Mark(chunk: int, size: nat, kind: nat, ghost pc: Piece) returns (ptr: int)
      requires Inv(0) && chunk in pieces && BecomesLive(pieces[chunk], pc) && pc.size == size && KindOf(pc) == kind
      modifies this`mem, this`pieces
      ensures Inv(0) && ptr == chunk + 8 && pieces == old(pieces)[chunk := pc]
    {
      ghost var v' := MarkSound(V(), chunk, pc);
      mem := WriteMarks(mem, chunk, size, Magic(chunk, kind));
      pieces := pieces[chunk := pc];
      assert V() == v';
      ptr := chunk + 8;
    }

    /** kalloc_medium. */
    method KallocMedium(size: nat) returns (ptr: int)
      requires Valid() && SMALLALLOC < size < LARGEALLOC
      modifies this, pages.bitmap
      ensures Valid() && Served(old(Lives()), ptr, size)
      ensures MediumFor(old(V()), pages.Used(), pages.metaPages, old(mediumNext), size + MARK_SIZE, ChunkOf(ptr))
    {
      hide Sound, Sizes, MediumAt;
      var sizeMarked := size + MARK_SIZE;
      var index := Power2(sizeMarked);
      MediumOrder(sizeMarked, index);
      ghost var ps := pieces;
      var ok := AllocTzlChunk(index);
      if !ok {
        return 0;
      }
      ghost var ps1 := pieces;
      var chunk := PopMedium(index);
      ptr := Mark(chunk, sizeMarked, MEM_MEDIUM, LiveMedium(index, sizeMarked));
      assert pieces == ps1[chunk := LiveMedium(index, sizeMarked)];
      GainedLives(ps, ps1, chunk, LiveMedium(index, sizeMarked));
    }

    /** The chunk that a pointer was made of; NULL of NULL. */
    static function ChunkOf(ptr: int): int { if ptr == 0 then 0 else ptr - 8 }

    /** On success one live piece more, whose payload holds the request; on failure nothing changed. */
    ghost predicate Served(before: Pieces, ptr: int, size: nat)
      reads this
    {
      if ptr == 0 then Lives() == before
      else ptr - 8 !in before && ptr - 8 in Lives() && GoodFor(Lives()[ptr - 8], size)
           && Lives() == before[ptr - 8 := Lives()[ptr - 8]]
    }

    /** Take the j-th chunk off a buddy list, redirecting the link before it. */
    method Unlink(index: nat, prev: int, chunk: int, ghost j: nat)
      requires Inv(0) && index < TZL_SIZE && j < |V().lists[index]|
      requires chunk == lists[index][j] && prev == (if j == 0 then 0 else lists[index][j - 1])
      modifies this`tzl, this`lists, this`pieces, this`mem
      ensures Inv(0) && chunk in old(pieces) && old(pieces)[chunk] == FreeMedium(index)
      ensures pieces == old(pieces)[chunk := Hole(index)]
      ensures lists == old(lists)[index := old(lists)[index][..j] + old(lists)[index][j + 1..]]
    {
      hide Sound;
      ghost var v' := CutSound(V(), index, j);
      var next := mem[chunk];
      if prev == 0 {
        tzl := tzl[index := next];
      } else {
        mem := Write32(mem, prev, next);
      }
      lists := lists[index := lists[index][..j] + lists[index][j + 1..]];
      pieces := pieces[chunk := Hole(index)];
      assert V() == v';
    }

    /** free_tzl_chunk: merge with the buddy while it is free, then push. */
    method FreeTzlChunk(self: int, size: nat, index: nat)
      requires Inv(0) && index < TZL_SIZE && size == Exp2(index) && self in pieces && self > 0
      requires pieces[self] == Hole(index)
      modifies this`tzl, this`lists, this`pieces, this`mem
      ensures Inv(0) && GaveBack(old(pieces), pieces, self) && PutBack(old(lists), lists, index, self)
      decreases TZL_SIZE - index
    {
      hide Sound, PutBack, OneTaken;
      ghost var v := V();
      TopOfList(v, index);
      HoleFacts(v, self, index);
      var buddy := Xor(self, size);
      var prev, it := 0, tzl[index];
      ghost var j := 0;
      while it != 0
        invariant 0 <= j <= |v.lists[index]|
        invariant it == (if j < |v.lists[index]| then v.lists[index][j] else 0)
        invariant prev == (if j == 0 then 0 else v.lists[index][j - 1])
        invariant forall i :: 0 <= i < j ==> v.lists[index][i] != buddy
        invariant (it != 0 ==> it in mem) && (j < |v.lists[index]| ==> it > 0)
        invariant V() == v
        decreases |v.lists[index]| - j
      {
        NextInList(v, index, j);
        if it == buddy {
          Unlink(index, prev, buddy, j);
          TakenAt(v.lists[index], j);
          MergeSound(V(), index, self);
          ghost var ps, mid := pieces, lists;
          pieces := MergePieces(pieces, self, buddy, index);
          if buddy < self {
            FreeTzlChunk(buddy, size * 2, index + 1);
          } else {
            FreeTzlChunk(self, size * 2, index + 1);
          }
          MergedGaveBack(v.ps, pieces, self, buddy, index);
          PutMerged(v.lists, mid, lists, index, self, buddy);
          return;
        }
        prev := it;
        it := mem[it];
        j := j + 1;
      }
      BuddyNotFree(v, index, self);
      PutAlone(v.lists, index, self);
      PushMedium(self, index);
    }

    /** kfree_medium. */
    method KfreeMedium(p: int, size: nat)
      requires Valid() && p in Lives() && Lives()[p].LiveMedium? && Lives()[p].size == size
      modifies this`tzl, this`lists, this`pieces, this`mem
      ensures Valid() && Lives() == old(Lives()) - {p} && BackInClass(old(pieces), pieces, p)
      ensures PutBack(old(lists), lists, old(pieces)[p].order, p)
    {
      hide Sound, PutBack;
      ghost var ps := pieces;
      var order := ReleaseSound(V(), p);
      var index := Power2(size);
      LeastOrderUnique(size, index, order);
      pieces := pieces[p := Hole(index)];
      FreeTzlChunk(p, Exp2(index), index);
      GaveBackLives(ps, pieces, p, index);
    }

    /** Take the first chunk of the pool. */
    method PopSmall() returns (chunk: int)
      requires Inv(0) && pool != []
      modifies this`chunkpool, this`pool, this`pieces
      ensures Inv(0) && chunk > 0 && chunk in old(pieces) && old(pieces)[chunk] == FreeSmall
      ensures pieces == old(pieces)[chunk := SmallHole] && chunk == old(pool)[0] && pool == old(pool)[1..]
    {
      hide Sound;
      ghost var v' := PopSmallSound(V());
      chunk := chunkpool;
      chunkpool := mem[chunk];
      pool := pool[1..];
      pieces := pieces[chunk := SmallHole];
      assert V() == v';
    }

    /** The loop that links the chunks of a new pool, the last one to NULL. */
    static method ThreadChunks(m0: Memory, base: int, size: nat, ghost n: nat) returns (m: Memory)
      requires size == CHUNKSIZE * n && n > 0
      ensures SameOutside(m0, m, base, base + size) && Threaded(m, base, n)
    {
      m := m0;
      var chunk := base;
      var offset := CHUNKSIZE;
      ghost var j := 0;
      while offset < size
        invariant 0 <= j < n && offset == CHUNKSIZE * (j + 1) && chunk == base + CHUNKSIZE * j
        invariant forall t :: 0 <= t < j ==> NextAt(m, base, t)
        invariant SameOutside(m0, m, base, base + size)
      {
        var next := chunk + CHUNKSIZE;
        ghost var m1 := m;
        m := Write32(m, chunk, next);
        NextKept(m1, m, base, j, next);
        chunk := next;
        offset := offset + CHUNKSIZE;
        j := j + 1;
      }
      ghost var m1 := m;
      m := Write32(m, chunk, 0);
      NextKept(m1, m, base, j, 0);
    }

    /** mem_realloc_small and the threading of the new chunks. */
    method RefillPool() returns (size: int)
      requires Inv(0) && pool == []
      modifies this`chunkpool, this`pool, this`pieces, this`mem, this`smallNext, pages.bitmap
      ensures Inv(0) && size >= 0
      ensures size == 0 ==> pieces == old(pieces)
      ensures size > 0 ==> pool != [] && OnlySmallAdded(old(pieces), pieces)
      ensures size > 0 ==> smallNext == old(smallNext) + 1 && pool == ChunkSeq(pool[0], 128 * Exp2(old(smallNext)))
      ensures PageAt(old(V()), pages.Used(), pages.metaPages, FIRST_ALLOC_SMALL * Exp2(old(smallNext)),
                     if size == 0 then 0 else pool[0])
    {
      hide Sound, Threaded, SameOutside, Room, PageAt, ChunkSeq, AddChunks, BlockSizes;
      ghost var n := 128 * Exp2(smallNext);
      size := FIRST_ALLOC_SMALL * Exp2(smallNext);
      var base := GetPages(size);
      if base == 0 {
        return 0;
      }
      var m := ThreadChunks(mem, base, size, n);
      ghost var v, to := V(), base + PageCountPadded(size) * PAGE_SIZE;
      RoomFits(v, base, to);
      RoomInside(v, base, to, base, base + size);
      PoolSound(v, base, n, m);
      mem, chunkpool, smallNext := m, base, smallNext + 1;
      pool, pieces := ChunkSeq(base, n), AddChunks(pieces, base, n);
      assert V() == PoolView(v, base, n, m);
    }

    /** kalloc_small. */
    method KallocSmall() returns (ptr: int)
      requires Valid()
      modifies this, pages.bitmap
      ensures Valid() && Served(old(Lives()), ptr, SMALLALLOC)
      ensures SmallAt(old(V()), pages.Used(), pages.metaPages, old(smallNext), ChunkOf(ptr))
      ensures old(pool) != [] ==> pool == old(pool)[1..]
    {
      hide Sound;
      ghost var ps := pieces;
      EmptyPool(V());
      if chunkpool == 0 {
        var size := RefillPool();
        if size == 0 {
          return 0;
        }
      }
      ghost var ps1 := pieces;
      var chunk := PopSmall();
      ptr := Mark(chunk, CHUNKSIZE, MEM_SMALL, LiveSmall(CHUNKSIZE));
      assert pieces == ps1[chunk := LiveSmall(CHUNKSIZE)];
      SmallLives(ps, ps1, chunk);
    }

    /** kfree_small. */
    method KfreeSmall(p: int)
      requires Valid() && p in Lives() && Lives()[p].LiveSmall?
      modifies this`chunkpool, this`pool, this`pieces, this`mem
      ensures Valid() && Lives() == old(Lives()) - {p} && BackInClass(old(pieces), pieces, p)
      ensures pool == [p] + old(pool)
    {
      hide Sound;
      ghost var v' := PushSmallSound(V(), p);
      var next := chunkpool;
      mem := Write32(mem, p, next);
      chunkpool := p;
      pool := [p] + pool;
      pieces := pieces[p := FreeSmall];
      assert V() == v';
    }

    /** kalloc_large. */
    method KallocLarge(size: nat) returns (ptr: int)
      requires Valid() && LARGEALLOC <= size && size + MARK_SIZE < WORD
      modifies this`mem, this`pieces, pages.bitmap
      ensures Valid() && Served(old(Lives()), ptr, size)
      ensures PageAt(old(V()), pages.Used(), pages.metaPages, size + MARK_SIZE, ChunkOf(ptr))
    {
      hide Sound, Room, Magic, WriteMarks, LivePieces, PageAt;
      var sizeMarked := (size + MARK_SIZE) % WORD;
      ghost var ps := pieces;
      var chunk := GetPages(sizeMarked);
      if chunk == 0 {
        return 0;
      }
      ghost var v' := LargeSound(V(), chunk, sizeMarked);
      mem := WriteMarks(mem, chunk, sizeMarked, Magic(chunk, MEM_LARGE));
      pieces := pieces[chunk := LiveLarge(sizeMarked)];
      assert V() == v';
      ptr := chunk + 8;
      assert pieces == ps[chunk := LiveLarge(sizeMarked)];
      LiveAdded(ps, chunk, LiveLarge(sizeMarked));
    }

    /** kfree_large. */
    method KfreeLarge(p: int, size: nat)
      requires Valid() && p in Lives() && Lives()[p] == LiveLarge(size)
      modifies this`pieces, pages.bitmap
      ensures Valid() && Lives() == old(Lives()) - {p} && BackInClass(old(pieces), pieces, p)
    {
      hide Sound;
      ghost var v' := ReleaseLargeSound(V(), p);
      LiveDropped(pieces, p);
      pages.Free(p, size);
      pieces := pieces - {p};
      assert V() == v';
    }

    /** mem_mark_check: the marks of a block, when both ends agree. */
    method MarkCheck(ptr: int) returns (a: Option<Alloc>)
      requires Readable(mem, ptr - 8)
      ensures a == CheckedMarks(mem, ptr - 8)
    {
      var head := ptr - 8;
      var size := mem[head];
      var magic := mem[head + 4];
      var tail := head + size - 8;
      if mem[tail] != magic || mem[tail + 4] != size {
        return None;
      }
      a := Some(Alloc(head, magic % 4, size));
    }

    /** kalloc: NULL for nothing, else a block of the class of the size, or NULL with no block gained. */
    method KAlloc(size: nat) returns (ptr: int)
      requires Valid() && size + MARK_SIZE < WORD
      modifies this, pages.bitmap
      ensures Valid() && Served(old(Lives()), ptr, size) && (size == 0 ==> ptr == 0)
      ensures PlaceOf(old(V()), pages.Used(), pages.metaPages, old(smallNext), old(mediumNext), size, ChunkOf(ptr))
    {
      hide Sound, SmallAt, MediumFor, PageAt;
      if size <= 0 {
        return 0;
      }
      if size >= LARGEALLOC {
        ptr := KallocLarge(size);
      } else if size <= SMALLALLOC {
        ptr := KallocSmall();
      } else {
        ptr := KallocMedium(size);
      }
    }

    /** kfree: a live block goes back to its class; a pointer whose marks disagree changes nothing. */
    method KFree(ptr: int)
      requires Valid() && (ptr - 8 in Lives() || (Readable(mem, ptr - 8) && CheckedMarks(mem, ptr - 8) == None))
      modifies this, pages.bitmap
      ensures Valid() && Lives() == old(Lives()) - {ptr - 8}
      ensures ptr - 8 in old(Lives()) ==> BackInClass(old(pieces), pieces, ptr - 8)
      ensures ptr - 8 !in old(Lives()) ==> V() == old(V())
    {
      hide Sound;
      if ptr - 8 in Lives() {
        LiveMarks(V(), ptr - 8);
      }
      var a := MarkCheck(ptr);
      if a == None {
        return;
      }
      var Alloc(p, kind, size) := a.value;
      if kind == MEM_SMALL {
        KfreeSmall(p);
      } else if kind == MEM_MEDIUM {
        KfreeMedium(p, size);
      } else if kind == MEM_LARGE {
        KfreeLarge(p, size);
      }
    }

    /** The program writes a byte of its own block: the heap does not notice. */
    method StoreByte(ghost p: int, a: int)
      requires Valid() && p in Lives() && InPayload(Lives(), p, a)
      modifies this`mem
      ensures Valid() && Lives() == old(Lives())
    {
      hide Sound;
      ghost var v' := StoreByteSound(V(), p, a);
      mem := WriteByte(mem, a);
      assert V() == v';
    }

    /** When no medium block is live, each free list holds exactly the blocks of its size obtained from the page
        allocator. */
    lemma AllMediumFreed(k: nat)
      requires Valid() && k < TZL_SIZE && forall p :: p in Lives() ==> !Lives()[p].LiveMedium?
      ensures |lists| == TZL_SIZE && forall b :: b in blocks && blocks[b] == k ==> lists[k] == [b]
      ensures lists[k] != [] ==> lists[k][0] in blocks && blocks[lists[k][0]] == k
    {
      assert NoHoles(pieces) && forall q :: q in pieces && IsLive(pieces[q]) ==> q in Lives();
      ListsAreBlocks(pieces, blocks, lists, k);
    }
  }
}
