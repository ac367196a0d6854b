/** malloc_state and the operations that change it. */
module MallocArena {
  import opened Integers
  import opened MallocSizes
  import opened BoundaryTags
  import opened Lists
  import opened FreeLists
  import opened Malloc

  /** Where the memory of a request came from, or why there was none. */
  datatype Source = ExactFit | LastRemainder | BestBin | TopSplit | OutOfMemory | TooLarge

  function SignedWord(x: int): int { if x >= WORD / 2 then x - WORD else x }

  function PageUp(x: int): int { (x + PAGE - 1) / PAGE * PAGE }

  /** The raw size word, as the binning loop compares it. */
  function HeadWord(h: Head): int { h.size + if h.pinuse then 1 else 0 }

  ghost predicate SizeOk(nb: int) { nb % 8 == 0 && MINSIZE <= nb && nb + MINSIZE < WORD }

  /** Size of the chunk handed out for nb bytes of a free chunk: all of it when the rest would be too small. */
  function Granted(size: int, nb: int): int { if size - nb < MINSIZE then size else nb }

  class Arena {
    const heapStart: int
    const heapEnd: int
    // memory: size words and footers
    var head: map<int, Head>
    var foot: map<int, int>
    ghost var place: map<int, Place>
    ghost var base: int
    // malloc_state; top is 0 while it still points to its own bin
    var top: int
    var bins: seq<seq<int>>
    var fastbins: seq<seq<int>>
    var binmap: seq<Word>
    var lastRemainder: int
    var maxFast: int
    var anyChunks: bool
    var fastChunks: bool
    // end of the memory obtained so far
    var curptr: int

    ghost function T(): Tags
      reads this
    {
      Tags(head, foot, place, base, top)
    }

    ghost predicate TopReaches()
      requires top in head
      reads this
    {
      var e := top + head[top].size;
      heapStart <= base && e <= curptr && (e == curptr || curptr + PAGE > heapEnd)
    }

    /** The invariant but for the flags, with the bins describing the places `listed`. */
    ghost predicate CoreWith(listed: Places)
      reads this
    {
      && 0 < heapStart <= curptr <= heapEnd < WORD / 2 && heapEnd % PAGE == 0
      && InBins(listed, head, bins) && InFastBins(place, head, fastbins)
      && |binmap| == BINMAP_SIZE + 1 && MapCovers(bins, binmap)
      && (maxFast == 0 || maxFast == MAX_FAST)
      && (top == 0 ==> place == map[])
      && (top != 0 ==> maxFast != 0 && Sound(T()) && TopReaches())
    }

    ghost predicate Core()
      reads this
    {
      CoreWith(place)
    }

    ghost predicate Flags()
      reads this
    {
      && (anyChunks ==> top != 0)
      && (!anyChunks ==> !fastChunks && NoFree(place))
      && (!fastChunks ==> NoFast(place))
    }

    ghost predicate Valid()
      reads this
    {
      Core() && Flags()
    }

    /** The live chunks are the old ones plus, on success, a new one that holds nb bytes and wastes less than
        MINSIZE. */
    ghost predicate Served(before: map<int, int>, nb: int, mem: int)
      reads this
    {
      if mem == 0 then Lives(T()) == before
      else
        var p := mem - 8;
        p !in before && p in Lives(T()) && nb <= Lives(T())[p] < nb + MINSIZE
            && Lives(T()) == before[p := Lives(T())[p]]
    }

    function TopSize(): int
      reads this
    {
      if top != 0 && top in head then head[top].size else 0
    }

    /** What each source promises about the chunks that were passed over. */
    ghost predicate Justified(src: Source, nb: int, mem: int, taken: int)
      reads this
    {
      match src
      case ExactFit => mem != 0 && mem - 8 in Lives(T()) && Lives(T())[mem - 8] == nb
      case LastRemainder =>
        && mem != 0 && InSmallBinRange(nb) && taken > nb + MINSIZE
        && |bins| == NBINS && bins[1] == [mem - 8 + nb] && nb >= 0 && bins[nb / 8] == []
      case BestBin => mem != 0 && taken >= nb && BestFit(T(), nb, taken, mem - 8 + nb)
      case TopSplit => mem != 0 && NoneFits(T(), nb)
      case OutOfMemory =>
        && mem == 0 && NoneFits(T(), nb) && NoFast(place)
        && TopSize() < nb + MINSIZE && TopSize() + (heapEnd - curptr) < nb + MINSIZE + PAGE
      case TooLarge => mem == 0
    }

    /** The last remainder is the rest of the last split for a small request, whether that took the last remainder or a
        best fit; nothing else changes it. */
    ghost predicate Advertised(src: Source, nb: int, mem: int, taken: int, before: int)
      reads this
    {
      && (src == LastRemainder ==> mem - 8 == before)
      && lastRemainder ==
           if InSmallBinRange(nb) && (src == LastRemainder || src == BestBin) && taken - nb >= MINSIZE
           then mem - 8 + nb else before
    }

    constructor (heapStart: int, heapEnd: int)
      requires 0 < heapStart <= heapEnd < WORD / 2 && heapEnd % PAGE == 0
      ensures Valid() && Lives(T()) == map[]
    {
      this.heapStart, this.heapEnd, curptr := heapStart, heapEnd, heapStart;
      head, foot, place, base, top := map[], map[], map[], 0, 0;
      bins := seq(NBINS, i => []);
      fastbins := seq(NFASTBINS, i => []);
      binmap := seq(BINMAP_SIZE + 1, i => seq(BITS_PER_MAP, j => false));
      lastRemainder, maxFast, anyChunks, fastChunks := 0, 0, false, false;
    }

    /** sbrk: hands out the next diff bytes, and refuses to shrink or to pass the end. */
    method Sbrk(diff: int) returns (brk: int)
      requires 0 < heapStart <= curptr <= heapEnd < WORD / 2
      requires -WORD / 2 <= diff < WORD / 2
      modifies this`curptr
      ensures brk == -1 ==> curptr == old(curptr)
      ensures brk != -1 ==> brk == old(curptr) && curptr == old(curptr) + diff
      ensures brk != -1 <==> 0 <= diff && old(curptr) + diff <= heapEnd
      ensures heapStart <= curptr <= heapEnd
    {
      var c := (curptr + diff) % WORD;
      if c < curptr || c > heapEnd {
        return -1;
      }
      brk := curptr;
      curptr := c;
    }

    /** Trimming asks sbrk for a negative amount, so nothing changes. */
    method SysTrim()
      requires Valid() && top != 0
      modifies this`curptr
      ensures curptr == old(curptr)
    {
      var topSize := head[top].size;
      At(T(), top);
      var extra := ((topSize - MINSIZE + (PAGE - 1)) / PAGE - 1) * PAGE;
      if extra > 0 {
        var current := Sbrk(0);
        if current == top + topSize {
          var ignored := Sbrk(-extra);
          var newBrk := Sbrk(0);
          assert newBrk == current;
        }
      }
    }

    /** The boundary-tag work of freeing: merge with free neighbours, then list the result or extend top. */
    method MergeNeighbours(chunk: int) returns (size: int)
      requires |bins| == NBINS && chunk in place && NeighboursKnown(T(), chunk)
      modifies this`head, this`foot, this`place, this`top, this`bins
      ensures T() == Freed(old(T()), chunk) && bins == FreedBins(old(T()), old(bins), chunk)
      ensures var b := MergedStart(old(T()), chunk); b in head && head[b].size == size
    {
      hide Unlink;
      var p := chunk;
      size := head[p].size;
      var nextchunk := p + size;
      var nextsize := head[nextchunk].size;
      if !head[p].pinuse {
        var prevsize := foot[p];
        size := size + prevsize;
        p := p - prevsize;
        bins := Unlink(bins, p);
      }
      if nextchunk != top {
        var nextinuse := head[nextchunk + nextsize].pinuse;
        head := head[nextchunk := Head(nextsize, false)];
        place := place - (if nextinuse then {chunk} else {chunk, nextchunk});
        if !nextinuse {
          bins := Unlink(bins, nextchunk);
          size := size + nextsize;
        }
        bins := bins[1 := [p] + bins[1]];
        head := head[p := Head(size, true)];
        foot := foot[p + size := size];
        place := place[p := Bin(1)];
      } else {
        size := size + nextsize;
        head := head[p := Head(size, true)];
        top := p;
        place := (place - {chunk, nextchunk})[p := Top];
      }
    }

    /** Give a live chunk back. */
    method Coalesce(chunk: int) returns (size: int)
      requires Core() && top != 0 && chunk in place && place[chunk].Live?
      modifies this`head, this`foot, this`place, this`top, this`bins
      ensures Core() && top != 0
      ensures NeighboursKnown(old(T()), chunk) && T() == Freed(old(T()), chunk)
      ensures bins == FreedBins(old(T()), old(bins), chunk)
      ensures MergedStart(old(T()), chunk) in head && head[MergedStart(old(T()), chunk)].size == size
      ensures Lives(T()) == old(Lives(T())) - {chunk}
      ensures forall q :: q in place && place[q].Fast? ==> q in old(place) && old(place)[q].Fast?
    {
      ghost var t, bins0 := T(), bins;
      FreedConsistent(t, bins, fastbins, chunk);
      FreedReach(t, chunk);
      MapCoversFreed(t, bins, binmap, chunk);
      size := MergeNeighbours(chunk);
      forall q | q in place && place[q].Fast?
        ensures q in t.place && t.place[q].Fast?
      {
      }
    }

    /** Detach one chunk from a fastbin, on its way to being merged or reused. */
    method PopFast(fb: nat) returns (p: int)
      requires Core() && top != 0 && fb < NFASTBINS && fastbins[fb] != []
      modifies this`fastbins, this`place
      ensures Core() && p == old(fastbins)[fb][0] && fastbins == old(fastbins)[fb := old(fastbins)[fb][1..]]
      ensures p in place && place[p].Live? && place == old(place)[p := Live]
      ensures p !in old(Lives(T())) && p in head && FastBinIndex(head[p].size) == fb && head[p].size % 8 == 0
      ensures Lives(T()) == old(Lives(T()))[p := head[p].size]
    {
      ghost var t := T();
      p := fastbins[fb][0];
      assert p in fastbins[fb] && InFastBin(t.place, t.head, fastbins, p);
      PopFastIn(t.place, t.head, fastbins, fb, Live);
      MoveSound(t, p, Live);
      var rest := fastbins[fb][1..];
      SameBins(t.place, t.head, t.place[p := Live], t.head, bins);
      fastbins := fastbins[fb := rest];
      place := place[p := Live];
    }

    /** Merge every chunk of one fastbin. */
    method DrainFastbin(fb: nat)
      requires Core() && fb < NFASTBINS
      modifies this`head, this`foot, this`place, this`top, this`bins, this`fastbins
      ensures Core() && (top == 0) == (old(top) == 0) && fastbins[fb] == []
      ensures forall i :: 0 <= i < NFASTBINS && i != fb ==> fastbins[i] == old(fastbins)[i]
      ensures Lives(T()) == old(Lives(T()))
      ensures old(fastbins)[fb] == [] ==> place == old(place)
    {
      hide InBins, MapCovers, Freed, FreedBins, BoundaryTags.Sound, NeighboursKnown, MergedStart;
      while fastbins[fb] != []
        invariant Core() && (top == 0) == (old(top) == 0) && |fastbins| == NFASTBINS
        invariant forall i :: 0 <= i < NFASTBINS && i != fb ==> fastbins[i] == old(fastbins)[i]
        invariant Lives(T()) == old(Lives(T()))
        invariant old(fastbins)[fb] == [] ==> place == old(place)
        decreases |fastbins[fb]|
      {
        ghost var h := FastbinHead(place, head, fastbins, fb);
        var p := PopFast(fb);
        AddThenRemove(old(Lives(T())), p, head[p].size);
        var size := Coalesce(p);
      }
    }

    /** malloc_consolidate: empty every fastbin, merging its chunks; on the first call, initialise. */
    method MallocConsolidate()
      requires Valid()
      modifies this`head, this`foot, this`place, this`top, this`bins, this`fastbins, this`fastChunks, this`maxFast
      ensures Valid() && !fastChunks && maxFast == MAX_FAST
      ensures Lives(T()) == old(Lives(T()))
      ensures (top == 0) == (old(top) == 0)
    {
      hide InBins, MapCovers;
      if maxFast != 0 {
        fastChunks := false;
        var maxfb := FastBinIndex(maxFast);
        var fb := 0;
        while fb <= maxfb
          invariant Core() && 0 <= fb <= maxfb + 1 && (top == 0) == (old(top) == 0)
          invariant !fastChunks && maxFast == MAX_FAST && maxfb == FastBinIndex(MAX_FAST)
          invariant Lives(T()) == old(Lives(T()))
          invariant forall i :: 0 <= i < fb ==> fastbins[i] == []
          invariant !anyChunks ==> place == old(place)
        {
          if !anyChunks {
            EmptyFastbin(place, head, fastbins, fb);
          }
          DrainFastbin(fb);
          fb := fb + 1;
        }
        EmptyFastbins(place, head, fastbins);
      } else {
        maxFast := MAX_FAST;
      }
    }

    /** A small chunk waits in the fastbin of its size. */
    method PushFast(p: int)
      requires Core() && top != 0 && p in place && place[p].Live? && p in head
      requires head[p].size <= MAX_FAST && MINSIZE <= head[p].size && head[p].size % 8 == 0
      modifies this`fastbins, this`place
      ensures Core() && Lives(T()) == old(Lives(T())) - {p}
      ensures fastbins == old(fastbins)[FastBinIndex(head[p].size) := [p] + old(fastbins)[FastBinIndex(head[p].size)]]
      ensures place == old(place)[p := Fast(FastBinIndex(head[p].size))]
    {
      ghost var t := T();
      var fb := FastBinIndex(head[p].size);
      PushFastIn(place, head, fastbins, p, fb);
      At(t, p);
      MoveSound(t, p, Fast(fb));
      SameBins(t.place, t.head, t.place[p := Fast(fb)], t.head, bins);
      fastbins := fastbins[fb := [p] + fastbins[fb]];
      place := place[p := Fast(fb)];
    }

    /** fREe: small chunks go to a fastbin as they are, others are merged with their neighbours. */
    method Free(mem: int)
      requires Valid() && (mem != 0 ==> mem - 8 in Lives(T()))
      modifies this
      ensures Valid()
      ensures Lives(T()) == if mem == 0 then old(Lives(T())) else old(Lives(T())) - {mem - 8}
      ensures lastRemainder == old(lastRemainder) && curptr == old(curptr) && maxFast == old(maxFast)
      ensures mem == 0 ==> T() == old(T()) && bins == old(bins) && fastbins == old(fastbins)
      ensures mem != 0 && old(head)[mem - 8].size <= old(maxFast) ==>
          WentFast(old(T()), old(bins), old(fastbins), mem - 8)
      ensures mem != 0 && old(head)[mem - 8].size > old(maxFast) ==>
          WentBack(old(T()), old(bins), old(fastbins), old(fastChunks), mem - 8)
    {
      hide InBins, MapCovers, Freed, FreedBins, WentBack;
      if mem != 0 {
        var p := mem - 8;
        At(T(), p);
        anyChunks := true;
        if head[p].size <= maxFast {
          fastChunks := true;
          PushFast(p);
        } else {
          FreeLarge(p);
        }
      }
    }

    /** The chunk is the first one of the fastbin of its size; nothing else has changed. */
    ghost predicate WentFast(t: Tags, bins0: seq<seq<int>>, fastbins0: seq<seq<int>>, p: int)
      reads this
    {
      && p in t.head && |fastbins0| == NFASTBINS && 0 <= FastBinIndex(t.head[p].size) < NFASTBINS
      && var fb := FastBinIndex(t.head[p].size);
      && T() == t.(place := t.place[p := Fast(fb)]) && bins == bins0
      && fastbins == fastbins0[fb := [p] + fastbins0[fb]]
    }

    /** The chunk has merged with its free neighbours. Fastbins are emptied when the result is large, and are as they
        were otherwise. */
    ghost predicate WentBack(t: Tags, bins0: seq<seq<int>>, fastbins0: seq<seq<int>>, fast0: bool, p: int)
      reads this
    {
      && |bins0| == NBINS && p in t.place && NeighboursKnown(t, p)
      && MergedStart(t, p) in Freed(t, p).head
      && var size := Freed(t, p).head[MergedStart(t, p)].size;
      && (size >= FASTBIN_CONSOLIDATION_THRESHOLD ==> !fastChunks && NoFast(place))
      && (size < FASTBIN_CONSOLIDATION_THRESHOLD || !fast0 ==>
            T() == Freed(t, p) && bins == FreedBins(t, bins0, p) && fastbins == fastbins0)
    }

    /** What fREe does with a chunk that is too large for the fastbins. */
    method FreeLarge(p: int)
      requires Valid() && top != 0 && anyChunks && p in place && place[p].Live?
      modifies this
      ensures Valid() && Lives(T()) == old(Lives(T())) - {p}
      ensures lastRemainder == old(lastRemainder) && curptr == old(curptr) && maxFast == old(maxFast)
      ensures WentBack(old(T()), old(bins), old(fastbins), old(fastChunks), p)
    {
      hide InBins, InFastBins, MapCovers, Freed, FreedBins;
      BinsCount(place, head, bins);
      var size := Coalesce(p);
      if size >= FASTBIN_CONSOLIDATION_THRESHOLD {
        if fastChunks {
          MallocConsolidate();
        }
        if head[top].size >= TRIM_THRESHOLD {
          SysTrim();
        }
      }
    }

    /** The boundary-tag work of handing out a free chunk: whole if the rest would be too small, else split. */
    method CutChunk(victim: int, nb: int, advertise: bool)
      requires |bins| == NBINS && victim in head && Next(T(), victim) in head
      requires head[victim].size - nb >= MINSIZE ==> bins[1] == []
      modifies this`head, this`foot, this`place, this`bins, this`lastRemainder
      ensures T() == Carved(old(T()), victim, nb)
      ensures bins == if old(head)[victim].size - nb < MINSIZE then old(bins) else old(bins)[1 := [victim + nb]]
      ensures lastRemainder ==
          if advertise && old(head)[victim].size - nb >= MINSIZE then victim + nb else old(lastRemainder)
    {
      var size := head[victim].size;
      var remainderSize := size - nb;
      if remainderSize < MINSIZE {
        var n := victim + size;
        head := head[n := head[n].(pinuse := true)];
        place := place[victim := Live];
      } else {
        var remainder := victim + nb;
        bins := bins[1 := [remainder]];
        if advertise {
          lastRemainder := remainder;
        }
        head := head[victim := Head(nb, true)];
        head := head[remainder := Head(remainderSize, true)];
        foot := foot[remainder + remainderSize := remainderSize];
        place := place[victim := Live][remainder := Bin(1)];
      }
    }

    /** Hand out an unlinked free chunk; if it was the best fit, no smaller chunk that would do is left. */
    method Carve(victim: int, nb: int, advertise: bool, ghost best: bool) returns (mem: int)
      requires top != 0 && SizeOk(nb) && victim in place && place[victim].Bin?
      requires CoreWith(place - {victim}) && Flags()
      requires victim in head && Next(T(), victim) in head && head[victim].size >= nb
      requires head[victim].size - nb >= MINSIZE ==> bins[1] == []
      requires best ==> BestFit(T(), nb, head[victim].size, victim)
      modifies this`head, this`foot, this`place, this`bins, this`lastRemainder
      ensures Valid() && mem == victim + 8 > 8
      ensures victim !in old(Lives(T()))
      ensures Lives(T()) == old(Lives(T()))[victim := Granted(old(head)[victim].size, nb)]
      ensures best ==> BestFit(T(), nb, old(head)[victim].size, victim + nb)
      ensures bins == if old(head)[victim].size - nb < MINSIZE then old(bins) else old(bins)[1 := [victim + nb]]
      ensures lastRemainder ==
          if advertise && old(head)[victim].size - nb >= MINSIZE then victim + nb else old(lastRemainder)
    {
      ghost var t := T();
      At(t, victim);
      CarvedConsistent(t, bins, fastbins, victim, nb);
      if best {
        BestFitAfterCarve(t, victim, nb);
      }
      CutChunk(victim, nb, advertise);
      mem := victim + 8;
    }

    /** Take a chunk off its bin and hand it out. */
    method TakeFromBin(victim: int, nb: int) returns (mem: int)
      requires Valid() && top != 0 && SizeOk(nb) && bins[1] == []
      requires victim in place && place[victim].Bin? && victim in head && head[victim].size >= nb
      requires BestFit(T(), nb, head[victim].size, victim)
      modifies this`head, this`foot, this`place, this`bins, this`lastRemainder
      ensures Valid() && Served(old(Lives(T())), nb, mem) && mem == victim + 8 > 8
      ensures BestFit(T(), nb, old(head)[victim].size, mem - 8 + nb)
      ensures lastRemainder == old(lastRemainder)
    {
      At(T(), victim);
      UnlinkIn(place, head, bins, victim);
      MapCoversUnlink(bins, binmap, victim);
      bins := Unlink(bins, victim);
      assert bins[1] == [];
      mem := Carve(victim, nb, false, true);
    }

    /** Scan the bin of a large request from its smallest chunk up. */
    method ScanOwnBin(nb: int) returns (mem: int, ghost taken: int)
      requires Valid() && top != 0 && SizeOk(nb) && !InSmallBinRange(nb) && bins[1] == []
      modifies this`head, this`foot, this`place, this`bins, this`lastRemainder
      ensures Valid() && Served(old(Lives(T())), nb, mem)
      ensures mem != 0 ==> taken >= nb && BestFit(T(), nb, taken, mem - 8 + nb)
      ensures mem != 0 ==> LastThatFits(old(head), old(bins), nb, BinIndex(nb), mem - 8, taken)
      ensures lastRemainder == old(lastRemainder)
      ensures mem == 0 ==> T() == old(T()) && bins == old(bins) && BinIndex(nb) < NBINS
      ensures mem == 0 ==> forall p :: p in bins[BinIndex(nb)] ==> p in head && head[p].size < nb
    {
      BinIndexRange(nb);
      ghost var t := T();
      var idx := LargeBinIndex(nb);
      var b := bins[idx];
      BinMembers(place, head, bins, idx);
      var k := |b|;
      while k > 0
        invariant 0 <= k <= |b| && T() == t && bins == old(bins) && Valid()
        invariant forall a :: k <= a < |b| ==> head[b[a]].size < nb
      {
        k := k - 1;
        var victim := b[k];
        if head[victim].size >= nb {
          taken := head[victim].size;
          SmallestInBin(t, bins, nb, idx, k);
          mem := TakeFromBin(victim, nb);
          return;
        }
      }
      return 0, 0;
    }

    /** Skip the bitmap words that are zero. */
    method NextBlock(ghost idx: nat, from: nat) returns (block: nat)
      requires |bins| == NBINS && |binmap| == BINMAP_SIZE + 1 && MapCovers(bins, binmap) && 0 < from < BINMAP_SIZE
      requires forall i :: idx < i < from * BITS_PER_MAP ==> bins[i] == []
      ensures from <= block <= BINMAP_SIZE
      ensures block < BINMAP_SIZE ==> exists j :: 0 <= j < BITS_PER_MAP && binmap[block][j]
      ensures forall i :: idx < i < block * BITS_PER_MAP ==> bins[i] == []
    {
      block := from;
      while block < BINMAP_SIZE && BitsValue(binmap[block]) == 0
        invariant from <= block <= BINMAP_SIZE
        invariant forall i :: idx < i < block * BITS_PER_MAP ==> bins[i] == []
      {
        ZeroWordIsEmpty(binmap[block]);
        ClearBitsEmptyBins(bins, binmap, block, 0);
        block := block + 1;
      }
      if block < BINMAP_SIZE {
        ZeroWordIsEmpty(binmap[block]);
      }
    }

    /** Advance to a set bit; there must be one. */
    method NextBit(ghost idx: nat, block: nat, from: nat) returns (bit: nat)
      requires |bins| == NBINS && |binmap| == BINMAP_SIZE + 1 && MapCovers(bins, binmap) && block <= BINMAP_SIZE
      requires exists j :: from <= j < BITS_PER_MAP && binmap[block][j]
      requires 2 <= idx < block * BITS_PER_MAP + from
      requires forall i :: idx < i < block * BITS_PER_MAP + from && i < NBINS ==> bins[i] == []
      ensures from <= bit < BITS_PER_MAP && binmap[block][bit] && block < BINMAP_SIZE
      ensures forall i :: idx < i < block * BITS_PER_MAP + bit ==> bins[i] == []
    {
      bit := from;
      while !binmap[block][bit]
        invariant from <= bit < BITS_PER_MAP
        invariant exists j :: bit <= j < BITS_PER_MAP && binmap[block][j]
        invariant forall i :: idx < i < block * BITS_PER_MAP + bit && i < NBINS ==> bins[i] == []
        decreases BITS_PER_MAP - bit
      {
        ClearBitEmptyBin(bins, binmap, block, bit);
        bit := bit + 1;
      }
    }

    /** First non-empty bin behind idx, found through the bitmap; bits of bins found empty are cleared on the way. */
    method FindBin(idx: nat) returns (bin: nat)
      requires |bins| == NBINS && |binmap| == BINMAP_SIZE + 1 && MapCovers(bins, binmap) && 2 <= idx < NBINS
      modifies this`binmap
      ensures |binmap| == BINMAP_SIZE + 1 && MapCovers(bins, binmap)
      ensures idx < bin && (bin < NBINS ==> bins[bin] != [])
      ensures forall i :: idx < i < bin && i < NBINS ==> bins[i] == []
    {
      hide Exp2, BitsValue, MapCovers;
      bin := idx + 1;
      var block := bin / BITS_PER_MAP;
      var map_ := binmap[block];
      var bit := bin % BITS_PER_MAP;
      while true
        invariant |binmap| == BINMAP_SIZE + 1 && MapCovers(bins, binmap)
        invariant 0 <= block <= BINMAP_SIZE && 0 <= bit <= BITS_PER_MAP && map_ == binmap[block]
        invariant idx < bin == block * BITS_PER_MAP + bit
        invariant forall i :: idx < i < bin && i < NBINS ==> bins[i] == []
        decreases BINMAP_SIZE - block, BITS_PER_MAP - bit
      {
        BitAboveMap(map_, bit);
        if bit == BITS_PER_MAP || Exp2(bit) > BitsValue(map_) {
          ClearBitsEmptyBins(bins, binmap, block, bit);
          block := block + 1;
          if block < BINMAP_SIZE {
            block := NextBlock(idx, block);
          }
          if block >= BINMAP_SIZE {
            return NBINS;
          }
          map_ := binmap[block];
          bin := block * BITS_PER_MAP;
          bit := 0;
        }
        bit := NextBit(idx, block, bit);
        bin := block * BITS_PER_MAP + bit;
        if bins[bin] != [] {
          return;
        }
        map_ := map_[bit := false];
        ClearBit(bins, binmap, block, bit);
        binmap := binmap[block := map_];
        bin := bin + 1;
        bit := bit + 1;
      }
    }

    /** Search the later bins upwards for the best fit. */
    method ScanBins(nb: int) returns (mem: int, ghost taken: int)
      requires Valid() && top != 0 && SizeOk(nb) && bins[1] == [] && BinIndex(nb) < NBINS
      requires forall p :: p in bins[BinIndex(nb)] ==> p in head && head[p].size < nb
      modifies this`head, this`foot, this`place, this`bins, this`lastRemainder, this`binmap
      ensures Valid() && Served(old(Lives(T())), nb, mem)
      ensures mem != 0 ==> taken >= nb && BestFit(T(), nb, taken, mem - 8 + nb)
      ensures mem != 0 ==> LastThatFitsBehind(old(head), old(bins), nb, mem - 8, taken)
      ensures mem == 0 ==>
          T() == old(T()) && NoneFits(T(), nb) && lastRemainder == old(lastRemainder) && bins == old(bins)
      ensures mem != 0 ==> Advertised(BestBin, nb, mem, taken, old(lastRemainder))
    {
      BinIndexRange(nb);
      var bin := FindBin(BinIndex(nb));
      if bin < NBINS {
        mem, taken := TakeLast(nb, bin);
      } else {
        NothingFits(T(), bins, nb);
        mem, taken := 0, 0;
      }
    }

    /** Take the last, hence smallest, chunk of the first later bin that is not empty. */
    method TakeLast(nb: int, bin: nat) returns (mem: int, ghost taken: int)
      requires Valid() && top != 0 && SizeOk(nb) && bins[1] == [] && BinIndex(nb) < bin < NBINS && bins[bin] != []
      requires forall p :: p in bins[BinIndex(nb)] ==> p in head && head[p].size < nb
      requires forall i :: BinIndex(nb) < i < bin ==> bins[i] == []
      modifies this`head, this`foot, this`place, this`bins, this`lastRemainder
      ensures Valid() && Served(old(Lives(T())), nb, mem)
      ensures mem != 0 && taken >= nb && BestFit(T(), nb, taken, mem - 8 + nb)
      ensures LastThatFits(old(head), old(bins), nb, bin, mem - 8, taken)
      ensures Advertised(BestBin, nb, mem, taken, old(lastRemainder))
    {
      hide InBins, InFastBins, MapCovers, BestFit, FitsAt, Exp2, HighBit;
      BinsCount(place, head, bins);
      var s := bins[bin];
      var victim := s[|s| - 1];
      LastOfBin(T(), bins, fastbins, binmap, nb, bin);
      BinIndexRange(nb);
      taken := head[victim].size;
      bins := bins[bin := s[..|s| - 1]];
      mem := Carve(victim, nb, InSmallBinRange(nb), true);
    }

    /** The binning loop's choice of a place in a bin. */
    method FindPosition(i: nat, size: int, ghost victim: int) returns (k: nat)
      requires top != 0 && Sound(T()) && InBins(place - {victim}, head, bins)
      requires i < NBINS && (i < NSMALLBINS <==> InSmallBinRange(size))
      ensures forall a :: 0 <= a < |bins[i]| ==> bins[i][a] in head
      ensures k == InsertPosition(head, bins[i], size)
    {
      var s := bins[i];
      BinMembers(place - {victim}, head, bins, i);
      if InSmallBinRange(size) || s == [] {
        return 0;
      }
      WordOf(T(), s[|s| - 1]);
      if size < HeadWord(head[s[|s| - 1]]) {
        return |s|;
      }
      k := 0;
      WordOf(T(), s[0]);
      while size + 1 < HeadWord(head[s[k]])
        invariant 0 <= k < |s| && HeadWord(head[s[k]]) == head[s[k]].size + 1
        invariant forall a :: 0 <= a < k ==> head[s[a]].size > size
        decreases |s| - k
      {
        k := k + 1;
        WordOf(T(), s[k]);
      }
      FirstNotLarger(head, s, size, k);
    }

    /** Put a chunk taken off the unsorted list into its bin. */
    method PlaceInBin(victim: int)
      requires top != 0 && victim in place && place[victim].Bin? && victim in head && head[victim].size % 8 == 0
      requires CoreWith(place - {victim}) && Flags() && head[victim].size >= MINSIZE
      modifies this`place, this`bins, this`binmap
      ensures Valid() && Lives(T()) == old(Lives(T()))
      ensures 2 <= BinIndex(head[victim].size) < NBINS
      ensures var i := BinIndex(head[victim].size); var s := old(bins)[i];
        && (forall a :: 0 <= a < |s| ==> s[a] in head)
        && var k := InsertPosition(head, s, head[victim].size); bins[i] == s[..k] + [victim] + s[k..]
      ensures forall j :: 0 <= j < NBINS && j != BinIndex(head[victim].size) ==> bins[j] == old(bins)[j]
    {
      hide InBins, InFastBins, MapCovers, Lives;
      BinsCount(place - {victim}, head, bins);
      var size := head[victim].size;
      BinIndexRange(size);
      var i := if InSmallBinRange(size) then size / 8 else LargeBinIndex(size);
      var k := FindPosition(i, size, victim);
      Rebinned(T(), bins, fastbins, victim, i, k);
      MarkCovers(bins, binmap, i, bins[i][..k] + [victim] + bins[i][k..]);
      binmap := binmap[i / BITS_PER_MAP := binmap[i / BITS_PER_MAP][i % BITS_PER_MAP := true]];
      bins := bins[i := bins[i][..k] + [victim] + bins[i][k..]];
      place := place[victim := Bin(i)];
    }

    /** Hand out the oldest unsorted chunk: an exact fit, or a larger one that is alone in the list. */
    method UseUnsorted(nb: int) returns (mem: int)
      requires Valid() && top != 0 && SizeOk(nb) && bins[1] != []
      requires bins[1][|bins[1]| - 1] in head
      requires var size := head[bins[1][|bins[1]| - 1]].size; size == nb || (size > nb && |bins[1]| == 1)
      modifies this`head, this`foot, this`place, this`bins, this`lastRemainder
      ensures Valid() && Served(old(Lives(T())), nb, mem) && mem != 0
      ensures var v := old(bins)[1][|old(bins)[1]| - 1]; old(head)[v].size == nb ==> Justified(ExactFit, nb, mem, nb)
      ensures mem - 8 == old(bins)[1][|old(bins)[1]| - 1]
      ensures forall i :: 2 <= i < NBINS ==> bins[i] == old(bins)[i]
      ensures var size := old(head)[mem - 8].size;
          if size == nb then lastRemainder == old(lastRemainder) && bins[1] == old(bins)[1][..|old(bins)[1]| - 1]
          else size - nb >= MINSIZE ==> lastRemainder == mem - 8 + nb && bins[1] == [mem - 8 + nb]
    {
      hide InBins, InFastBins, MapCovers;
      BinsCount(place, head, bins);
      var n := |bins[1]|;
      var victim := bins[1][n - 1];
      OldestUnsorted(T(), bins, binmap);
      bins := bins[1 := bins[1][..n - 1]];
      mem := Carve(victim, nb, true, false);
    }

    /** Move the oldest unsorted chunk to its bin. */
    method BinUnsorted(nb: int)
      requires Valid() && top != 0 && SizeOk(nb) && bins[1] != []
      requires var v := bins[1][|bins[1]| - 1]; v in head && head[v].size != nb
      modifies this`place, this`bins, this`binmap
      ensures Valid() && Lives(T()) == old(Lives(T()))
      ensures bins[1] == old(bins)[1][..|old(bins)[1]| - 1]
      ensures InSmallBinRange(nb) ==> bins[nb / 8] == old(bins)[nb / 8]
    {
      var n := |bins[1]|;
      var victim := bins[1][n - 1];
      BinMembers(place, head, bins, 1);
      At(T(), victim);
      DropLast(place, head, bins, 1);
      if InSmallBinRange(nb) {
        SmallBinOfSize(nb, head[victim].size);
      }
      bins := bins[1 := bins[1][..n - 1]];
      PlaceInBin(victim);
    }

    /** The last remainder is unsorted, behind all other unsorted chunks, and larger than a small request. */
    ghost predicate RemainderFits(nb: int)
      reads this
    {
      && InSmallBinRange(nb) && |bins| > 1 && bins[1] != [] && bins[1][0] == lastRemainder
      && lastRemainder in head && head[lastRemainder].size > nb + MINSIZE
    }

    /** One round of the drain: use the oldest unsorted chunk if the rules allow it, else bin it. */
    method DrainOne(nb: int) returns (mem: int, ghost src: Source, ghost taken: int)
      requires Valid() && top != 0 && SizeOk(nb) && bins[1] != [] && (InSmallBinRange(nb) ==> bins[nb / 8] == [])
      modifies this`head, this`foot, this`place, this`bins, this`lastRemainder, this`binmap
      ensures Valid() && Served(old(Lives(T())), nb, mem)
      ensures mem != 0 ==> (src == ExactFit || src == LastRemainder) && Justified(src, nb, mem, taken)
      ensures mem == 0 ==> bins[1] == old(bins)[1][..|old(bins)[1]| - 1] && lastRemainder == old(lastRemainder)
      ensures mem != 0 ==>
          mem - 8 == old(bins)[1][|old(bins)[1]| - 1] && Advertised(src, nb, mem, taken, old(lastRemainder))
      ensures mem == 0 ==>
          head == old(head) && var v := old(bins)[1][|old(bins)[1]| - 1]; v in head && head[v].size != nb
      ensures src == LastRemainder && mem != 0 ==> old(bins)[1] == [old(lastRemainder)]
      ensures mem == 0 && InSmallBinRange(nb) ==> bins[nb / 8] == old(bins)[nb / 8]
      ensures |old(bins)[1]| == 1 && old(RemainderFits(nb)) ==> mem != 0
    {
      var n := |bins[1]|;
      var victim := bins[1][n - 1];
      BinMembers(place, head, bins, 1);
      var size := head[victim].size;
      src, taken := ExactFit, size;
      if InSmallBinRange(nb) && n == 1 && victim == lastRemainder && size > nb + MINSIZE {
        mem := UseUnsorted(nb);
        src := LastRemainder;
      } else if size == nb {
        mem := UseUnsorted(nb);
      } else {
        BinUnsorted(nb);
        mem := 0;
      }
    }

    /** Drain the unsorted list: take a chunk that fits exactly, or the last remainder if it is alone; bin the
        others. */
    method DrainUnsorted(nb: int) returns (mem: int, ghost src: Source, ghost taken: int)
      requires Valid() && top != 0 && SizeOk(nb) && (InSmallBinRange(nb) ==> bins[nb / 8] == [])
      modifies this`head, this`foot, this`place, this`bins, this`lastRemainder, this`binmap
      ensures Valid() && Served(old(Lives(T())), nb, mem)
      ensures mem != 0 ==> (src == ExactFit || src == LastRemainder) && Justified(src, nb, mem, taken)
      ensures mem == 0 ==> bins[1] == [] && lastRemainder == old(lastRemainder)
      ensures mem != 0 ==> Advertised(src, nb, mem, taken, old(lastRemainder))
      ensures mem != 0 ==> FirstExact(old(head), old(bins)[1], nb, mem - 8)
      ensures mem != 0 && src == LastRemainder ==> mem - 8 == old(bins)[1][0]
      ensures mem == 0 && InSmallBinRange(nb) ==> bins[nb / 8] == old(bins)[nb / 8]
      ensures old(RemainderFits(nb)) ==> mem != 0
    {
      mem, src, taken := 0, ExactFit, 0;
      while bins[1] != []
        invariant Valid() && Lives(T()) == old(Lives(T())) && mem == 0 && lastRemainder == old(lastRemainder)
        invariant bins[1] <= old(bins)[1] && head == old(head)
        invariant forall a :: |bins[1]| <= a < |old(bins)[1]| ==>
            old(bins)[1][a] in head && head[old(bins)[1][a]].size != nb
        invariant InSmallBinRange(nb) ==> bins[nb / 8] == old(bins)[nb / 8]
        invariant old(RemainderFits(nb)) ==> bins[1] != []
        decreases |bins[1]|
      {
        mem, src, taken := DrainOne(nb);
        if mem != 0 {
          return;
        }
      }
    }

    /** Split the request off the front of top. */
    method TakeTop(nb: int) returns (mem: int)
      requires Valid() && top != 0 && SizeOk(nb) && head[top].size >= nb + MINSIZE
      requires NoneFits(T(), nb)
      modifies this`head, this`place, this`top
      ensures mem - 8 == old(top)
      ensures Valid() && Served(old(Lives(T())), nb, mem) && mem != 0 && NoneFits(T(), nb)
    {
      ghost var t := T();
      At(t, top);
      ToppedOff(t, bins, fastbins, nb);
      var victim := top;
      var size := head[victim].size;
      var remainder := victim + nb;
      top := remainder;
      head := head[victim := Head(nb, true)];
      head := head[remainder := Head(size - nb, true)];
      place := place[victim := Live][remainder := Top];
      assert T() == SplitTop(t, nb);
      mem := victim + 8;
    }

    /** Top grows by memory obtained right behind it. */
    method ExtendTop(size: int)
      requires 0 < heapStart <= base && curptr <= heapEnd < WORD / 2 && heapEnd % PAGE == 0 && maxFast == MAX_FAST
      requires Consistent(T(), bins, fastbins) && |binmap| == BINMAP_SIZE + 1 && MapCovers(bins, binmap) && Flags()
      requires top != 0 && size > 0 && top in head && top + head[top].size + size == curptr
      modifies this`head
      ensures Valid() && Lives(T()) == old(Lives(T()))
      ensures head == old(head)[top := Head(old(head)[top].size + size, true)]
    {
      TopGrows(T(), bins, fastbins, size);
      At(T(), top);
      head := head[top := Head(size + head[top].size, true)];
    }

    /** Align the first memory obtained and extend it to a page boundary if possible. */
    method AlignFirst(brk: int, size: int) returns (aligned: int, bytes: int)
      requires 0 < heapStart <= brk && brk + size == curptr <= heapEnd < WORD / 2 && heapEnd % PAGE == 0 && PAGE <= size
      modifies this`curptr
      ensures brk <= aligned < brk + 8 && aligned % 8 == 0 && aligned + bytes == curptr <= heapEnd
      ensures old(curptr) <= curptr <= old(curptr) + PAGE + 16
      ensures bytes % 4 != 0 ==> curptr + 8 > heapEnd
      ensures bytes >= size || (bytes > size - 8 && curptr + 8 > heapEnd)
    {
      var frontMisalign := (brk + 8) % 8;
      var correction := if frontMisalign > 0 then 8 - frontMisalign else 0;
      aligned := brk + correction;
      var endMisalign := brk + size + correction;
      PageUpBounds(endMisalign);
      DifferenceAligned(PageUp(endMisalign), aligned);
      correction := correction + PageUp(endMisalign) - endMisalign;
      var snd := Sbrk(correction);
      if snd == -1 {
        if endMisalign <= heapEnd {
          PageUpIsLeast(endMisalign, heapEnd);
        }
        correction := 0;
        snd := Sbrk(0);
      }
      bytes := snd - aligned + correction;
    }

    /** The first top. */
    method FirstTop(brk: int, size: int)
      requires Valid() && top == 0 && maxFast == MAX_FAST && !fastChunks
      requires heapStart <= brk && brk + size == curptr && PAGE <= size
      modifies this`head, this`place, this`base, this`top, this`curptr
      ensures Valid() && top != 0 && top in head && Lives(T()) == map[] && NoFree(place) && NoFast(place)
      ensures old(curptr) <= curptr <= old(curptr) + PAGE + 16
      ensures head[top].size >= size || (head[top].size > size - 12 && curptr + 8 > heapEnd)
    {
      var aligned, bytes := AlignFirst(brk, size);
      ghost var t' := LoneTop(T(), bins, fastbins, aligned, bytes - bytes % 4);
      top := aligned;
      head := head[top := Head(bytes - bytes % 4, true)];
      place := map[top := Top];
      base := top;
      assert T() == t';
    }

    /** Get memory from sbrk for a request that nothing present can serve. */
    method GrowTop(nb: int)
      requires Valid() && SizeOk(nb) && maxFast == MAX_FAST && !fastChunks && NoneFits(T(), nb)
      requires TopSize() < nb + MINSIZE
      modifies this`head, this`place, this`base, this`top, this`curptr
      ensures Valid() && Lives(T()) == old(Lives(T())) && NoneFits(T(), nb)
      ensures 0 <= old(TopSize())
      ensures old(curptr) <= curptr <= old(curptr) + nb + MINSIZE - old(TopSize()) + 2 * PAGE + 16
      ensures TopSize() < nb + MINSIZE ==> TopSize() + (heapEnd - curptr) < nb + MINSIZE + PAGE
    {
      var oldTop := top;
      var oldSize := if top == 0 then 0 else head[top].size;
      var oldEnd := oldTop + oldSize;
      if top != 0 {
        At(T(), top);
      }
      var size := (nb + MINSIZE - oldSize) % WORD;
      size := (size + (PAGE - 1)) % WORD / PAGE * PAGE;
      RoundedRequest(nb + MINSIZE - oldSize, size);
      var brk := -1;
      if SignedWord(size) > 0 {
        brk := Sbrk(SignedWord(size));
      }
      if brk != -1 {
        if brk == oldEnd {
          ExtendTop(size);
        } else {
          FirstTop(brk, size);
        }
      }
    }

    /** sYSMALLOc: retry after merging the fastbins if there are any, else get memory from the system. */
    method SysMalloc(nb: int) returns (mem: int, ghost src: Source, ghost taken: int)
      requires Valid() && SizeOk(nb) && maxFast == MAX_FAST && NoneFits(T(), nb) && TopSize() < nb + MINSIZE
      requires fastChunks ==> InSmallBinRange(nb)
      modifies this
      ensures Valid() && Served(old(Lives(T())), nb, mem) && src != TooLarge && Justified(src, nb, mem, taken)
      ensures !InSmallBinRange(nb) ==> !fastChunks
      ensures old(curptr) <= curptr <= old(curptr) + nb + MINSIZE + 2 * PAGE + 16
      ensures src != TopSplit && src != OutOfMemory ==> curptr == old(curptr)
      ensures Advertised(src, nb, mem, taken, old(lastRemainder))
      decreases if fastChunks then 1 else 0, 0
    {
      hide InBins, InFastBins, MapCovers, BestFit, NoneFits, NoFast;
      if fastChunks {
        MallocConsolidate();
        RetryPadsToSameSize(nb);
        mem, src, taken := MAlloc(nb - 7);
        return;
      }
      taken := 0;
      GrowTop(nb);
      if TopSize() >= nb + MINSIZE {
        mem := TakeTop(nb);
        src := TopSplit;
      } else {
        mem, src := 0, OutOfMemory;
      }
    }

    /** A chunk waits in the fastbin of this size. */
    ghost predicate FastHit(nb: int)
      reads this
    {
      anyChunks && nb <= maxFast && 0 <= FastBinIndex(nb) < |fastbins| && fastbins[FastBinIndex(nb)] != []
    }

    /** A chunk waits in the small bin of this size. */
    ghost predicate SmallHit(nb: int)
      reads this
    {
      anyChunks && InSmallBinRange(nb) && 0 <= nb / 8 < |bins| && bins[nb / 8] != []
    }

    /** The fastbin of the request's size. */
    method TakeFast(nb: int) returns (mem: int)
      requires Valid() && SizeOk(nb) && anyChunks
      modifies this`place, this`fastbins
      ensures Valid() && Served(old(Lives(T())), nb, mem)
      ensures mem != 0 ==> Justified(ExactFit, nb, mem, nb)
      ensures mem != 0 <==> old(FastHit(nb))
      ensures mem != 0 ==> var fb := FastBinIndex(nb);
          mem - 8 == old(fastbins)[fb][0] && fastbins == old(fastbins)[fb := old(fastbins)[fb][1..]]
      ensures mem == 0 ==> place == old(place) && fastbins == old(fastbins)
    {
      if nb <= maxFast {
        var fb := FastBinIndex(nb);
        if fastbins[fb] != [] {
          var victim := PopFast(fb);
          At(T(), victim);
          return victim + 8;
        }
      }
      mem := 0;
    }

    /** The small bin of the request's size. */
    method TakeSmall(nb: int) returns (mem: int)
      requires Valid() && SizeOk(nb) && anyChunks
      modifies this`head, this`foot, this`place, this`bins, this`lastRemainder
      ensures Valid() && Served(old(Lives(T())), nb, mem)
      ensures mem != 0 ==> Justified(ExactFit, nb, mem, nb)
      ensures mem != 0 <==> old(SmallHit(nb))
      ensures mem != 0 ==> var b := old(bins)[nb / 8];
          mem - 8 == b[|b| - 1] && bins == old(bins)[nb / 8 := b[..|b| - 1]]
      ensures lastRemainder == old(lastRemainder)
      ensures mem == 0 && InSmallBinRange(nb) ==> bins[nb / 8] == []
      ensures mem == 0 ==> bins == old(bins) && head == old(head)
    {
      if InSmallBinRange(nb) {
        var idx := nb / 8;
        if bins[idx] != [] {
          var victim := bins[idx][|bins[idx]| - 1];
          BinMembers(place, head, bins, idx);
          assert Binned(place, head, bins, victim);
          SmallBinIsExact(nb, head[victim].size);
          DropLast(place, head, bins, idx);
          At(T(), victim);
          bins := bins[idx := bins[idx][..|bins[idx]| - 1]];
          mem := Carve(victim, nb, false, false);
          return;
        }
      }
      mem := 0;
    }

    /** What serves a request without searching. */
    method TakeExact(nb: int) returns (mem: int)
      requires Valid() && SizeOk(nb) && anyChunks
      modifies this`head, this`foot, this`place, this`bins, this`fastbins, this`lastRemainder
      ensures Valid() && Served(old(Lives(T())), nb, mem)
      ensures mem != 0 ==> Justified(ExactFit, nb, mem, nb)
      ensures mem != 0 <==> old(FastHit(nb)) || old(SmallHit(nb))
      ensures old(FastHit(nb)) ==> mem - 8 == old(fastbins)[FastBinIndex(nb)][0] && bins == old(bins)
      ensures !old(FastHit(nb)) && old(SmallHit(nb)) ==> mem - 8 == old(bins)[nb / 8][|old(bins)[nb / 8]| - 1]
      ensures lastRemainder == old(lastRemainder)
      ensures mem == 0 && InSmallBinRange(nb) ==> bins[nb / 8] == []
      ensures mem == 0 ==> bins == old(bins) && head == old(head)
    {
      mem := TakeFast(nb);
      if mem == 0 {
        mem := TakeSmall(nb);
      }
    }

    /** The searches of a request that no exact small fit serves: drained chunks, own bin, later bins. */
    method Search(nb: int) returns (mem: int, ghost src: Source, ghost taken: int)
      requires Valid() && SizeOk(nb) && top != 0
      requires InSmallBinRange(nb) ==> bins[nb / 8] == []
      modifies this`head, this`foot, this`place, this`bins, this`lastRemainder, this`binmap
      ensures Valid() && Served(old(Lives(T())), nb, mem) && src != TooLarge
      ensures mem != 0 ==> Justified(src, nb, mem, taken)
      ensures mem == 0 ==> NoneFits(T(), nb) && lastRemainder == old(lastRemainder)
      ensures mem != 0 ==> Advertised(src, nb, mem, taken, old(lastRemainder))
      ensures old(RemainderFits(nb)) ==> mem != 0 && (src == ExactFit || src == LastRemainder)
    {
      mem, src, taken := DrainUnsorted(nb);
      if mem != 0 {
        return;
      }
      src := BestBin;
      BinIndexRange(nb);
      if !InSmallBinRange(nb) {
        mem, taken := ScanOwnBin(nb);
        if mem != 0 {
          return;
        }
      }
      mem, taken := ScanBins(nb);
    }

    /** No free chunk will do: split top, or get more memory. */
    method UseTop(nb: int) returns (mem: int, ghost src: Source, ghost taken: int)
      requires Valid() && SizeOk(nb) && maxFast == MAX_FAST && NoneFits(T(), nb)
      requires fastChunks ==> InSmallBinRange(nb)
      modifies this
      ensures Valid() && Served(old(Lives(T())), nb, mem) && src != TooLarge && Justified(src, nb, mem, taken)
      ensures !InSmallBinRange(nb) ==> !fastChunks
      ensures old(curptr) <= curptr <= old(curptr) + nb + MINSIZE + 2 * PAGE + 16
      ensures src != TopSplit && src != OutOfMemory ==> curptr == old(curptr)
      ensures Advertised(src, nb, mem, taken, old(lastRemainder))
      ensures old(TopSize()) >= nb + MINSIZE ==> curptr == old(curptr) && src == TopSplit && mem - 8 == old(top)
      decreases if fastChunks then 1 else 0, 1
    {
      if TopSize() >= nb + MINSIZE {
        mem := TakeTop(nb);
        src, taken := TopSplit, 0;
      } else {
        mem, src, taken := SysMalloc(nb);
      }
    }

    /** Everything mALLOc tries on free chunks, in order. */
    method TakeFree(nb: int) returns (mem: int, ghost src: Source, ghost taken: int)
      requires Valid() && SizeOk(nb) && anyChunks
      modifies this
      ensures Valid() && Served(old(Lives(T())), nb, mem) && src != TooLarge
      ensures mem != 0 ==> Justified(src, nb, mem, taken)
      ensures old(FastHit(nb)) || old(SmallHit(nb)) ==> mem != 0
      ensures old(FastHit(nb)) ==> src == ExactFit && mem - 8 == old(fastbins)[FastBinIndex(nb)][0] && bins == old(bins)
      ensures !old(FastHit(nb)) && old(SmallHit(nb)) ==>
          src == ExactFit && mem - 8 == old(bins)[nb / 8][|old(bins)[nb / 8]| - 1]
      ensures !InSmallBinRange(nb) ==> !fastChunks
      ensures curptr == old(curptr)
      ensures mem != 0 ==> Advertised(src, nb, mem, taken, old(lastRemainder))
      ensures mem == 0 ==> lastRemainder == old(lastRemainder)
      ensures mem == 0 ==>
          NoneFits(T(), nb) && (fastChunks ==> old(fastChunks) && InSmallBinRange(nb)) && maxFast == MAX_FAST
      ensures old(RemainderFits(nb)) ==> mem != 0 && (src == ExactFit || src == LastRemainder)
    {
      hide InBins, InFastBins, MapCovers, BestFit, NoneFits, NoFast;
      src, taken := ExactFit, nb;
      mem := TakeExact(nb);
      if mem != 0 {
        return;
      }
      if !InSmallBinRange(nb) && fastChunks {
        MallocConsolidate();
      }
      mem, src, taken := Search(nb);
    }

    /** mALLOc. */
    method MAlloc(bytes: nat) returns (mem: int, ghost src: Source, ghost taken: int)
      requires Valid() && bytes < WORD
      modifies this
      ensures Valid()
      ensures src == TooLarge <==> bytes >= REQUEST_LIMIT
      ensures src == TooLarge ==> mem == 0 && Lives(T()) == old(Lives(T()))
      ensures bytes < REQUEST_LIMIT ==> Served(old(Lives(T())), Request2Size(bytes), mem)
      ensures bytes < REQUEST_LIMIT ==> Justified(src, Request2Size(bytes), mem, taken)
      ensures bytes < REQUEST_LIMIT ==> var nb := Request2Size(bytes);
        && (old(FastHit(nb)) ==>
              src == ExactFit && mem - 8 == old(fastbins)[FastBinIndex(nb)][0] && bins == old(bins))
        && (!old(FastHit(nb)) && old(SmallHit(nb)) ==>
              src == ExactFit && mem - 8 == old(bins)[nb / 8][|old(bins)[nb / 8]| - 1])
        && (!InSmallBinRange(nb) ==> !fastChunks && NoFast(place))
        && (old(anyChunks && RemainderFits(nb)) ==> src == ExactFit || src == LastRemainder)
      ensures src != TopSplit && src != OutOfMemory ==> curptr == old(curptr)
      ensures bytes < REQUEST_LIMIT ==>
          old(curptr) <= curptr <= old(curptr) + Request2Size(bytes) + MINSIZE + 2 * PAGE + 16
      ensures bytes < REQUEST_LIMIT ==> Advertised(src, Request2Size(bytes), mem, taken, old(lastRemainder))
      ensures bytes >= REQUEST_LIMIT ==> lastRemainder == old(lastRemainder)
      decreases if fastChunks then 1 else 0, 2
    {
      hide InBins, InFastBins, MapCovers, BestFit, NoneFits, Justified;
      if bytes >= REQUEST_LIMIT {
        mem, src, taken := 0, TooLarge, 0;
        return;
      }
      var nb := Request2Size(bytes);
      if anyChunks {
        mem, src, taken := TakeFree(nb);
        if mem != 0 {
          return;
        }
      } else if maxFast == 0 {
        MallocConsolidate();
      }
      mem, src, taken := UseTop(nb);
    }
  }

  /** A chunk of a bin that is large enough, while those behind it, which waited longer or are smaller, are not. */
  ghost predicate LastThatFits(head: Heads, bins: seq<seq<int>>, nb: int, i: int, p: int, size: int) {
    0 <= i < |bins| && exists k ::
        0 <= k < |bins[i]| && FitsAt(head, bins[i], nb, k) && bins[i][k] == p && head[p].size == size
  }

  /** A chunk of the unsorted list behind which, among those that waited longer, none fits exactly. */
  ghost predicate FirstExact(head: Heads, s: seq<int>, nb: int, p: int) {
    exists k :: 0 <= k < |s| && s[k] == p && NoneExact(head, s, nb, k + 1)
  }

  ghost predicate NoneExact(head: Heads, s: seq<int>, nb: int, k: int) {
    forall a :: k <= a < |s| && a >= 0 ==> s[a] in head && head[s[a]].size != nb
  }

  ghost predicate LastThatFitsBehind(head: Heads, bins: seq<seq<int>>, nb: int, p: int, size: int)
    requires nb >= 0
  {
    exists i {:trigger LastThatFits(head, bins, nb, i, p, size)} ::
      BinIndex(nb) < i < |bins| && LastThatFits(head, bins, nb, i, p, size)
  }

  ghost predicate FitsAt(head: Heads, s: seq<int>, nb: int, k: int)
    requires 0 <= k < |s|
  {
    && s[k] in head && head[s[k]].size >= nb
    && forall a :: k < a < |s| ==> s[a] in head && head[s[a]].size < nb
  }

  /** The page-rounded size is the wanted one or, for requests near the word size, no usable one. */
  lemma RoundedRequest(want: int, size: int)
    requires 0 < want < WORD && size == (want % WORD + (PAGE - 1)) % WORD / PAGE * PAGE
    ensures SignedWord(size) > 0 ==> want <= size == SignedWord(size) < want + PAGE && size % PAGE == 0 && PAGE <= size
    ensures SignedWord(size) <= 0 ==> want + PAGE > WORD / 2
  {
  }

  lemma LoneTop(t: Tags, bins: seq<seq<int>>, fastbins: seq<seq<int>>, p: int, size: int) returns (t': Tags)
    requires t.place == map[] && Listed(t, bins, fastbins) && p % 8 == 0 && size >= MINSIZE
    ensures t' == Tags(t.head[p := Head(size, true)], t.foot, map[p := Top], p, p)
    ensures Consistent(t', bins, fastbins) && Lives(t') == map[] && NoFree(t'.place) && NoFast(t'.place)
  {
    t' := Tags(t.head[p := Head(size, true)], t.foot, map[p := Top], p, p);
    SameBins(t.place, t.head, t'.place, t'.head, bins);
    SameFastBins(t.place, t.head, t'.place, t'.head, fastbins);
  }

  lemma PageUpBounds(x: int)
    ensures x <= PageUp(x) < x + PAGE && PageUp(x) % 8 == 0
  {
  }

  lemma DifferenceAligned(a: int, b: int)
    requires a % 8 == 0 && b % 8 == 0
    ensures (a - b) % 4 == 0
  {
  }

  lemma PageUpIsLeast(x: int, end: int)
    requires x <= end && end % PAGE == 0
    ensures PageUp(x) <= end
  {
  }

  lemma TopGrows(t: Tags, bins: seq<seq<int>>, fastbins: seq<seq<int>>, size: int)
    requires Consistent(t, bins, fastbins) && size > 0
    ensures t.top in t.head
    ensures var t' := t.(head := t.head[t.top := Head(Size(t, t.top) + size, true)]);
            Consistent(t', bins, fastbins) && Lives(t') == Lives(t)
  {
    At(t, t.top);
    var t' := t.(head := t.head[t.top := Head(Size(t, t.top) + size, true)]);
    forall q | q in t'.place
      ensures ChunkSound(t', q)
      ensures q != t'.top ==> Followed(t', q) && Tagged(t', q)
    {
      At(t, q);
    }
    forall a, c | a in t'.place && c in t'.place
      ensures Apart(t', a, c)
    {
      NoOverlap(t, a, c);
    }
    SameBins(t.place, t.head, t'.place, t'.head, bins);
    SameFastBins(t.place, t.head, t'.place, t'.head, fastbins);
  }

  /** A small request's bin is not the one a chunk of another size goes to. */
  lemma SmallBinOfSize(nb: int, size: int)
    requires SizeOk(nb) && size >= MINSIZE && size % 8 == 0 && size != nb && InSmallBinRange(nb)
    ensures BinIndex(size) != nb / 8 && BinIndex(nb) == nb / 8
  {
    BinIndexRange(size);
    BinIndexRange(nb);
  }

  /** The size word of a binned chunk has its low bit set: the chunk before a free one is in use. */
  lemma WordOf(t: Tags, p: int)
    requires Sound(t) && p in t.place && t.place[p].Bin?
    ensures p in t.head && HeadWord(t.head[p]) == t.head[p].size + 1
  {
    At(t, p);
  }

  lemma FirstNotLarger(head: Heads, s: seq<int>, size: int, k: nat)
    requires forall a :: 0 <= a < |s| ==> s[a] in head
    requires k < |s| && head[s[k]].size <= size && forall a :: 0 <= a < k ==> head[s[a]].size > size
    ensures k == SkipLarger(head, s, size)
  {
  }

  lemma MarkCovers(bins: seq<seq<int>>, binmap: seq<Word>, i: nat, s: seq<int>)
    requires |bins| == NBINS && |binmap| == BINMAP_SIZE + 1 && MapCovers(bins, binmap) && 2 <= i < NBINS
    ensures MapCovers(bins[i := s], binmap[i / BITS_PER_MAP := binmap[i / BITS_PER_MAP][i % BITS_PER_MAP := true]])
  {
  }

  /** Clear bits from `bit` on mean empty bins. */
  lemma ClearBitsEmptyBins(bins: seq<seq<int>>, binmap: seq<Word>, block: nat, bit: nat)
    requires |bins| == NBINS && |binmap| == BINMAP_SIZE + 1 && MapCovers(bins, binmap) && block <= BINMAP_SIZE
    requires forall j :: bit <= j < BITS_PER_MAP ==> !binmap[block][j]
    requires block * BITS_PER_MAP + bit >= 2
    ensures forall i :: block * BITS_PER_MAP + bit <= i < (block + 1) * BITS_PER_MAP && i < NBINS ==> bins[i] == []
  {
    forall i | block * BITS_PER_MAP + bit <= i < (block + 1) * BITS_PER_MAP && i < NBINS
      ensures bins[i] == []
    {
      assert i / BITS_PER_MAP == block && !binmap[block][i % BITS_PER_MAP];
    }
  }

  lemma ClearBitEmptyBin(bins: seq<seq<int>>, binmap: seq<Word>, block: nat, bit: nat)
    requires |bins| == NBINS && |binmap| == BINMAP_SIZE + 1 && MapCovers(bins, binmap) && block <= BINMAP_SIZE
    requires bit < BITS_PER_MAP && !binmap[block][bit] && block * BITS_PER_MAP + bit >= 2
    ensures var i := block * BITS_PER_MAP + bit; i < NBINS ==> bins[i] == []
  {
    var i := block * BITS_PER_MAP + bit;
    assert i / BITS_PER_MAP == block && i % BITS_PER_MAP == bit;
  }

  lemma ClearBit(bins: seq<seq<int>>, binmap: seq<Word>, block: nat, bit: nat)
    requires |bins| == NBINS && |binmap| == BINMAP_SIZE + 1 && MapCovers(bins, binmap) && block < BINMAP_SIZE
    requires bit < BITS_PER_MAP && bins[block * BITS_PER_MAP + bit] == []
    ensures MapCovers(bins, binmap[block := binmap[block][bit := false]])
  {
    var m := binmap[block := binmap[block][bit := false]];
    forall i | 2 <= i < NBINS && bins[i] != []
      ensures m[i / BITS_PER_MAP][i % BITS_PER_MAP]
    {
      assert i == i / BITS_PER_MAP * BITS_PER_MAP + i % BITS_PER_MAP;
    }
  }

  /** With no fit in the request's own bin and all later bins empty, nothing binned fits. */
  lemma NothingFits(t: Tags, bins: seq<seq<int>>, nb: int)
    requires InBins(t.place, t.head, bins) && SizeOk(nb) && bins[1] == [] && BinIndex(nb) < NBINS
    requires forall p :: p in bins[BinIndex(nb)] ==> p in t.head && t.head[p].size < nb
    requires forall i :: BinIndex(nb) < i < NBINS ==> bins[i] == []
    ensures NoneFits(t, nb)
  {
    forall p | p in t.place && t.place[p].Bin? && p in t.head
      ensures t.head[p].size < nb
    {
      assert Binned(t.place, t.head, bins, p);
      var i := t.place[p].bin;
      assert p in bins[i];
      if t.head[p].size >= nb {
        BinIndexMonotone(nb, t.head[p].size);
      }
    }
  }

  lemma BinsCount(place: Places, head: Heads, bins: seq<seq<int>>)
    requires InBins(place, head, bins)
    ensures |bins| == NBINS
  {
  }

  /** What a bin holds. */
  lemma BinMembers(place: Places, head: Heads, bins: seq<seq<int>>, i: nat)
    requires InBins(place, head, bins) && i < NBINS
    ensures forall a :: 0 <= a < |bins[i]| ==>
      bins[i][a] in place && place[bins[i][a]] == Bin(i) && bins[i][a] in head && head[bins[i][a]].size >= MINSIZE
  {
    forall a | 0 <= a < |bins[i]|
      ensures bins[i][a] in place && place[bins[i][a]] == Bin(i) && bins[i][a] in head
      ensures head[bins[i][a]].size >= MINSIZE
    {
      var p := bins[i][a];
      assert p in bins[i];
      assert Binned(place, head, bins, p);
    }
  }

  lemma MapCoversUnlink(bins: seq<seq<int>>, binmap: seq<Word>, p: int)
    requires |bins| == NBINS && |binmap| == BINMAP_SIZE + 1 && MapCovers(bins, binmap)
    ensures MapCovers(Unlink(bins, p), binmap)
  {
  }

  /** Tags after handing out nb bytes of a free chunk. */
  function Carved(t: Tags, victim: int, nb: int): Tags
    requires victim in t.head && Next(t, victim) in t.head
  {
    if Size(t, victim) - nb < MINSIZE then TakeWhole(t, victim) else SplitFree(t, victim, nb)
  }

  lemma CarvedConsistent(t: Tags, bins: seq<seq<int>>, fastbins: seq<seq<int>>, victim: int, nb: int)
    requires Sound(t) && victim in t.place && t.place[victim].Bin? && SizeOk(nb)
    requires InBins(t.place - {victim}, t.head, bins) && InFastBins(t.place, t.head, fastbins)
    requires Placed(t, victim) && Size(t, victim) >= nb && (Size(t, victim) - nb >= MINSIZE ==> bins[1] == [])
    ensures Next(t, victim) in t.head
    ensures var t' := Carved(t, victim, nb); var whole := Size(t, victim) - nb < MINSIZE;
            && Consistent(t', if whole then bins else bins[1 := [victim + nb]], fastbins)
            && Lives(t') == Lives(t)[victim := Granted(Size(t, victim), nb)]
            && t'.top == t.top && t'.base == t.base && Size(t', t'.top) == Size(t, t.top)
            && (NoFast(t.place) ==> NoFast(t'.place))
    ensures victim !in Lives(t)
  {
    At(t, victim);
    NoOverlap(t, victim, t.top);
    if Size(t, victim) - nb < MINSIZE {
      TakenWhole(t, bins, fastbins, victim);
    } else {
      Split(t, bins, fastbins, victim, nb);
      assert [victim + nb] + bins[1] == [victim + nb];
    }
  }

  /** Scanned from its small end, a bin gives the smallest binned chunk that is large enough. */
  lemma SmallestInBin(t: Tags, bins: seq<seq<int>>, nb: int, idx: nat, k: nat)
    requires Sound(t) && InBins(t.place, t.head, bins) && SizeOk(nb) && bins[1] == []
    requires BinIndex(nb) <= idx < NBINS && k < |bins[idx]|
    requires bins[idx][k] in t.head && t.head[bins[idx][k]].size >= nb
    requires forall i, p :: BinIndex(nb) <= i < idx && p in bins[i] ==> p in t.head && t.head[p].size < nb
    requires forall a :: k < a < |bins[idx]| ==> bins[idx][a] in t.head && t.head[bins[idx][a]].size < nb
    ensures BestFit(t, nb, t.head[bins[idx][k]].size, bins[idx][k])
  {
    var victim := bins[idx][k];
    assert victim in bins[idx];
    assert Binned(t.place, t.head, bins, victim);
    forall p | p in t.place && t.place[p].Bin? && p in t.head && p != victim && t.head[p].size >= nb
      ensures t.head[victim].size <= t.head[p].size
    {
      assert Binned(t.place, t.head, bins, p);
      var i := t.place[p].bin;
      assert p in bins[i];
      BinIndexMonotone(nb, t.head[p].size);
      if i > idx {
        LaterBinIsLarger(t.head[victim].size, t.head[p].size);
      } else if idx < NSMALLBINS {
        BinIndexRange(t.head[p].size);
        SmallBinIsExact(t.head[victim].size, t.head[p].size);
      } else {
        var a :| 0 <= a < |bins[idx]| && bins[idx][a] == p;
        assert a < k;
      }
    }
  }

  /** The chunk that waits longest in the unsorted list can be taken off. */
  lemma OldestUnsorted(t: Tags, bins: seq<seq<int>>, binmap: seq<Word>)
    requires Sound(t) && InBins(t.place, t.head, bins) && bins[1] != []
    requires |binmap| == BINMAP_SIZE + 1 && MapCovers(bins, binmap)
    ensures var s := bins[1]; var v := s[|s| - 1];
            && v in t.place && t.place[v].Bin? && v in t.head && Next(t, v) in t.head
            && t.head[v].size % 8 == 0 && t.head[v].size >= MINSIZE
            && InBins(t.place - {v}, t.head, bins[1 := s[..|s| - 1]]) && MapCovers(bins[1 := s[..|s| - 1]], binmap)
  {
    BinMembers(t.place, t.head, bins, 1);
    At(t, bins[1][|bins[1]| - 1]);
    DropLast(t.place, t.head, bins, 1);
  }

  /** The last chunk of the first later bin that is not empty: the best fit, which can be taken off. */
  lemma LastOfBin(t: Tags, bins: seq<seq<int>>, fastbins: seq<seq<int>>, binmap: seq<Word>, nb: int, bin: nat)
    requires Consistent(t, bins, fastbins) && |binmap| == BINMAP_SIZE + 1 && MapCovers(bins, binmap)
    requires SizeOk(nb) && bins[1] == [] && BinIndex(nb) < bin < NBINS && bins[bin] != []
    requires forall p :: p in bins[BinIndex(nb)] ==> p in t.head && t.head[p].size < nb
    requires forall i :: BinIndex(nb) < i < bin ==> bins[i] == []
    ensures var s := bins[bin]; var v := s[|s| - 1];
            && v in t.place && t.place[v].Bin? && v in t.head && t.head[v].size >= nb && Next(t, v) in t.head
            && BestFit(t, nb, t.head[v].size, v)
            && InBins(t.place - {v}, t.head, bins[bin := s[..|s| - 1]])
            && MapCovers(bins[bin := s[..|s| - 1]], binmap)
            && FitsAt(t.head, s, nb, |s| - 1) && LastThatFits(t.head, bins, nb, bin, v, t.head[v].size)
  {
    var s := bins[bin];
    var v := s[|s| - 1];
    BinMembers(t.place, t.head, bins, bin);
    assert Binned(t.place, t.head, bins, v);
    LaterBinIsLarger(nb, t.head[v].size);
    At(t, v);
    DropLast(t.place, t.head, bins, bin);
    hide InBins, InFastBins;
    LastIsBest(t, bins, nb, bin);
  }

  lemma LastIsBest(t: Tags, bins: seq<seq<int>>, nb: int, bin: nat)
    requires Sound(t) && InBins(t.place, t.head, bins) && SizeOk(nb) && bins[1] == [] && BinIndex(nb) < bin < NBINS
    requires bins[bin] != [] && bins[bin][|bins[bin]| - 1] in t.head && t.head[bins[bin][|bins[bin]| - 1]].size >= nb
    requires forall p :: p in bins[BinIndex(nb)] ==> p in t.head && t.head[p].size < nb
    requires forall i :: BinIndex(nb) < i < bin ==> bins[i] == []
    ensures var v := bins[bin][|bins[bin]| - 1]; BestFit(t, nb, t.head[v].size, v)
  {
    SmallestInBin(t, bins, nb, bin, |bins[bin]| - 1);
  }

  /** Handing out the best fit leaves no smaller chunk that would have done. */
  lemma BestFitAfterCarve(t: Tags, victim: int, nb: int)
    requires victim in t.head && victim in t.place && t.place[victim].Bin? && Next(t, victim) in t.head
    requires BestFit(t, nb, t.head[victim].size, victim)
    ensures BestFit(Carved(t, victim, nb), nb, t.head[victim].size, victim + nb)
  {
  }

  lemma FastbinHead(place: Places, head: Heads, fastbins: seq<seq<int>>, fb: nat) returns (p: int)
    requires InFastBins(place, head, fastbins) && fb < NFASTBINS && fastbins[fb] != []
    ensures p == fastbins[fb][0] && p in place && place[p] == Fast(fb)
  {
    p := fastbins[fb][0];
    assert p in fastbins[fb];
  }

  lemma AddThenRemove(m: map<int, int>, p: int, v: int)
    requires p !in m
    ensures m[p := v] - {p} == m
  {
  }

  lemma EmptyFastbin(place: Places, head: Heads, fastbins: seq<seq<int>>, fb: nat)
    requires InFastBins(place, head, fastbins) && NoFast(place) && fb < NFASTBINS
    ensures fastbins[fb] == []
  {
    if |fastbins[fb]| > 0 {
      var p := FastbinHead(place, head, fastbins, fb);
    }
  }

  /** Fastbins hold nothing above the largest size they are used for. */
  lemma EmptyFastbins(place: Places, head: Heads, fastbins: seq<seq<int>>)
    requires InFastBins(place, head, fastbins)
    requires forall i :: 0 <= i <= FastBinIndex(MAX_FAST) ==> fastbins[i] == []
    ensures NoFast(place)
  {
    forall p | p in place
      ensures !place[p].Fast?
    {
      assert InFastBin(place, head, fastbins, p);
    }
  }

  /** Freeing leaves the end of the arena where it was. */
  lemma FreedReach(t: Tags, p: int)
    requires Sound(t) && InUse(t, p)
    ensures NeighboursKnown(t, p)
    ensures var t' := Freed(t, p);
            t'.top in t'.head && t.top in t.head && t'.base == t.base && Next(t', t'.top) == Next(t, t.top)
    ensures Freed(t, p).top >= t.base
  {
    NeighboursRead(t, p);
    At(t, MergedStart(t, p));
    if Next(t, p) != t.top && MergedStart(t, p) != t.top {
      NoOverlap(t, MergedStart(t, p), t.top);
      NoOverlap(t, Next(t, p), t.top);
    }
  }

  lemma MapCoversFreed(t: Tags, bins: seq<seq<int>>, binmap: seq<Word>, p: int)
    requires |bins| == NBINS && |binmap| == BINMAP_SIZE + 1 && MapCovers(bins, binmap)
    requires NeighboursKnown(t, p)
    ensures MapCovers(FreedBins(t, bins, p), binmap)
  {
  }
}
