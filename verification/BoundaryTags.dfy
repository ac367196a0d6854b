/** The arena as a tiling of chunks described by boundary tags: a size word with the PREV_INUSE bit
    in front of each chunk, and a copy of the size (the footer) behind each free one.
    The map `place` says, for each chunk start, which one list the chunk is in, if any. */
module BoundaryTags {
  import opened MallocSizes

  /** The size word of a chunk: its size and the bit that says the chunk before it is in use. */
  datatype Head = Head(size: int, pinuse: bool)

  /** Live chunks belong to the program; fastbin chunks are free but keep looking in use to their neighbours. */
  datatype Place = Live | Fast(fast: nat) | Bin(bin: nat) | Top

  datatype Tags = Tags(head: map<int, Head>, foot: map<int, int>, place: map<int, Place>, base: int, top: int)

  predicate IsFree(pl: Place) { pl.Bin? }

  function Size(t: Tags, p: int): int
    requires p in t.head
  {
    t.head[p].size
  }

  /** Start of the chunk behind p (for top: end of the arena). */
  function Next(t: Tags, p: int): int
    requires p in t.head
  {
    p + Size(t, p)
  }

  /** A chunk has a size word, lies in the arena, and is aligned and not too small. */
  ghost predicate Placed(t: Tags, p: int) {
    p in t.head && t.base <= p <= t.top && p % 8 == 0 && Size(t, p) >= MINSIZE
  }

  /** A chunk below top ends where another chunk starts. */
  ghost predicate Followed(t: Tags, p: int)
    requires p in t.head && p in t.place
  {
    Size(t, p) % 8 == 0 && Next(t, p) in t.place && t.place[p] != Top
  }

  ghost predicate Apart(t: Tags, p: int, q: int)
    requires p in t.head
  {
    p < q ==> Next(t, p) <= q
  }

  /** Chunks tile [base, top + size of top): each chunk but top ends where another one starts, and none overlap. */
  ghost predicate Tiling(t: Tags) {
    && t.base in t.place && t.top in t.place && t.place[t.top] == Top
    && (forall p :: p in t.place ==> p in t.head)
    && (forall p {:trigger Placed(t, p)} :: p in t.place ==> Placed(t, p))
    && (forall p {:trigger Followed(t, p)} :: p in t.place && p != t.top ==> Followed(t, p))
    && (forall p, q {:trigger Apart(t, p, q)} :: p in t.place && q in t.place ==> Apart(t, p, q))
  }

  /** The tag behind a chunk says whether it is in use; a free chunk has its footer and a used chunk before it. */
  ghost predicate Tagged(t: Tags, p: int)
    requires p in t.place && p in t.head && Next(t, p) in t.head
  {
    && (t.head[Next(t, p)].pinuse <==> !IsFree(t.place[p]))
    && (IsFree(t.place[p]) ==>
         t.head[p].pinuse && Next(t, p) in t.foot && t.foot[Next(t, p)] == Size(t, p))
  }

  /** Tags agree with the real neighbours, free chunks are fully coalesced, and the chunk before top is in use. */
  ghost predicate Agree(t: Tags)
    requires Tiling(t)
  {
    && t.head[t.base].pinuse
    && t.head[t.top].pinuse
    && (forall p {:trigger Tagged(t, p)} :: p in t.place && p != t.top ==>
         Followed(t, p) && Tagged(t, p))
  }

  /** Everything the invariant says of one chunk. */
  ghost predicate ChunkSound(t: Tags, p: int)
    requires p in t.place
  {
    Placed(t, p) && (p != t.top ==> Followed(t, p) && Placed(t, Next(t, p)) && Tagged(t, p))
  }

  ghost predicate Sound(t: Tags) { Tiling(t) && Agree(t) }

  /** The facts about one chunk. */
  lemma At(t: Tags, p: int)
    requires Tiling(t) && p in t.place
    ensures Placed(t, p)
    ensures p != t.top ==> Followed(t, p) && Placed(t, Next(t, p))
    ensures p != t.top && Agree(t) ==> Tagged(t, p)
  {
    assert Placed(t, p);
    if p != t.top {
      assert Followed(t, p);
      assert Placed(t, Next(t, p));
    }
  }

  lemma NoOverlap(t: Tags, p: int, q: int)
    requires Tiling(t) && p in t.place && q in t.place
    ensures Placed(t, p) && Placed(t, q) && Apart(t, p, q) && Apart(t, q, p)
  {
    At(t, p);
    At(t, q);
    assert Apart(t, p, q);
    assert Apart(t, q, p);
  }

  // ----- steps on the tags -----

  /** A whole free chunk is handed out: only the PREV_INUSE bit behind it changes. */
  function TakeWhole(t: Tags, p: int): Tags
    requires p in t.head && Next(t, p) in t.head
  {
    var n := Next(t, p);
    t.(head := t.head[n := t.head[n].(pinuse := true)], place := t.place[p := Live])
  }

  lemma TakeWholeSound(t: Tags, p: int)
    requires Sound(t) && p in t.place && IsFree(t.place[p])
    ensures p in t.head && Next(t, p) in t.head
    ensures Sound(TakeWhole(t, p))
  {
    At(t, p);
    var t' := TakeWhole(t, p);
    forall q | q in t'.place
      ensures ChunkSound(t', q) && Placed(t', q)
      ensures q != t'.top ==> Followed(t', q) && Tagged(t', q)
    {
      At(t, q);
    }
    forall a, b | a in t'.place && b in t'.place
      ensures Apart(t', a, b)
    {
      NoOverlap(t, a, b);
    }
  }

  /** The front of a free chunk is handed out and the rest goes to the unsorted list. */
  function SplitFree(t: Tags, p: int, nb: int): Tags
    requires p in t.head
  {
    var rest := Size(t, p) - nb;
    Tags(t.head[p := Head(nb, true)][p + nb := Head(rest, true)], t.foot[p + nb + rest := rest],
         t.place[p := Live][p + nb := Bin(1)], t.base, t.top)
  }

  lemma SplitFreeAt(t: Tags, p: int, nb: int, q: int)
    requires Sound(t) && p in t.place && IsFree(t.place[p])
    requires nb % 8 == 0 && MINSIZE <= nb && Size(t, p) - nb >= MINSIZE
    requires p + nb !in t.place
    requires q in SplitFree(t, p, nb).place
    ensures ChunkSound(SplitFree(t, p, nb), q)
  {
    At(t, p);
    if q in t.place {
      At(t, q);
    }
  }

  lemma SplitFreeApart(t: Tags, p: int, nb: int, a: int, c: int)
    requires Sound(t) && p in t.place && IsFree(t.place[p])
    requires nb % 8 == 0 && MINSIZE <= nb && Size(t, p) - nb >= MINSIZE
    requires p + nb !in t.place
    requires a in SplitFree(t, p, nb).place && c in SplitFree(t, p, nb).place
    ensures a in SplitFree(t, p, nb).head && Apart(SplitFree(t, p, nb), a, c)
  {
    At(t, p);
    if a in t.place && c in t.place {
      NoOverlap(t, a, c);
    } else if a in t.place {
      NoOverlap(t, a, p);
    } else if c in t.place {
      NoOverlap(t, p, c);
    }
  }

  lemma SplitFreeSound(t: Tags, p: int, nb: int)
    requires Sound(t) && p in t.place && IsFree(t.place[p])
    requires nb % 8 == 0 && MINSIZE <= nb && Size(t, p) - nb >= MINSIZE
    ensures p + nb !in t.place
    ensures Sound(SplitFree(t, p, nb))
  {
    At(t, p);
    if p + nb in t.place {
      NoOverlap(t, p, p + nb);
    }
    var t' := SplitFree(t, p, nb);
    forall q | q in t'.place
      ensures ChunkSound(t', q) && Placed(t', q)
      ensures q != t'.top ==> Followed(t', q) && Tagged(t', q)
    {
      SplitFreeAt(t, p, nb, q);
    }
    forall a, c | a in t'.place && c in t'.place
      ensures Apart(t', a, c)
    {
      SplitFreeApart(t, p, nb, a, c);
    }
  }

  /** The front of top is handed out. */
  function SplitTop(t: Tags, nb: int): Tags
    requires t.top in t.head
  {
    Tags(t.head[t.top := Head(nb, true)][t.top + nb := Head(Size(t, t.top) - nb, true)], t.foot,
         t.place[t.top := Live][t.top + nb := Top], t.base, t.top + nb)
  }

  lemma SplitTopSound(t: Tags, nb: int)
    requires Sound(t)
    requires nb % 8 == 0 && MINSIZE <= nb && Size(t, t.top) >= nb + MINSIZE
    ensures t.top + nb !in t.place
    ensures Sound(SplitTop(t, nb))
  {
    At(t, t.top);
    if t.top + nb in t.place {
      At(t, t.top + nb);
    }
    var t' := SplitTop(t, nb);
    forall q | q in t'.place
      ensures ChunkSound(t', q) && Placed(t', q)
      ensures q != t'.top ==> Followed(t', q) && Tagged(t', q)
    {
      if q in t.place {
        At(t, q);
      }
    }
    forall a, b | a in t'.place && b in t'.place
      ensures Apart(t', a, b)
    {
      if a in t.place {
        At(t, a);
        if b in t.place {
          NoOverlap(t, a, b);
        }
      } else if b in t.place {
        At(t, b);
      }
    }
  }

  /** A chunk changes list without changing its use as its neighbours see it. */
  function Move(t: Tags, p: int, pl: Place): Tags { t.(place := t.place[p := pl]) }

  lemma MoveSound(t: Tags, p: int, pl: Place)
    requires Sound(t) && p in t.place && p != t.top && pl != Top
    requires IsFree(pl) == IsFree(t.place[p])
    ensures Sound(Move(t, p, pl))
  {
    At(t, p);
    var t' := Move(t, p, pl);
    forall q | q in t'.place
      ensures ChunkSound(t', q) && Placed(t', q)
      ensures q != t'.top ==> Followed(t', q) && Tagged(t', q)
    {
      At(t, q);
    }
    forall a, b | a in t'.place && b in t'.place
      ensures Apart(t', a, b)
    {
      NoOverlap(t, a, b);
    }
  }

  // ----- freeing: merge with free neighbours -----

  /** Where the merged chunk starts. */
  function MergedStart(t: Tags, p: int): int
    requires p in t.head && (!t.head[p].pinuse ==> p in t.foot)
  {
    if t.head[p].pinuse then p else p - t.foot[p]
  }

  /** Whether a chunk is free, read from the tag behind it. */
  predicate ReadsFree(t: Tags, n: int)
    requires n in t.head && Next(t, n) in t.head
  {
    !t.head[Next(t, n)].pinuse
  }

  ghost predicate InUse(t: Tags, p: int) { p in t.place && (t.place[p].Live? || t.place[p].Fast?) }

  /** The tags of a chunk in use can be read, and what they say about its neighbours is true. */
  ghost predicate NeighboursKnown(t: Tags, p: int) {
    && p in t.head && Next(t, p) in t.place && Next(t, p) in t.head
    && (!t.head[p].pinuse ==> p in t.foot && t.foot[p] > 0)
    && (var b := MergedStart(t, p);
        && b in t.place && b in t.head && (b != p ==> b != t.top && IsFree(t.place[b]) && Next(t, b) == p))
    && (var n := Next(t, p);
        n != t.top ==> Next(t, n) in t.place && Next(t, n) in t.head && (ReadsFree(t, n) <==> IsFree(t.place[n])))
  }

  lemma NeighboursRead(t: Tags, p: int)
    requires Sound(t) && InUse(t, p)
    ensures NeighboursKnown(t, p)
  {
    At(t, p);
    At(t, t.base);
    if !t.head[p].pinuse {
      var b := Predecessor(t, p);
      At(t, b);
    }
    if Next(t, p) != t.top {
      At(t, Next(t, p));
    }
  }

  /** Every chunk but the first has a chunk ending where it starts. */
  lemma Predecessor(t: Tags, p: int) returns (b: int)
    requires Tiling(t) && p in t.place && p != t.base
    ensures b in t.place && b < p && Next(t, b) == p
  {
    b := t.base;
    At(t, p);
    while Next(t, b) != p
      invariant b in t.place && b < p
      decreases p - b
    {
      At(t, b);
      NoOverlap(t, b, p);
      At(t, p);
      b := Next(t, b);
    }
  }

  /** Tags after freeing p: into the unsorted list with its free neighbours merged in, or into top. */
  function Freed(t: Tags, p: int): Tags
    requires p in t.head && (!t.head[p].pinuse ==> p in t.foot)
    requires var n := Next(t, p); n in t.head && (n != t.top ==> Next(t, n) in t.head)
  {
    var b := MergedStart(t, p);
    var n := Next(t, p);
    if n == t.top then
      var size := Next(t, n) - b;
      t.(head := t.head[b := Head(size, true)], place := (t.place - {p, n})[b := Top], top := b)
    else
      var free := ReadsFree(t, n);
      var size := (if free then Next(t, n) else n) - b;
      t.(head := t.head[n := t.head[n].(pinuse := false)][b := Head(size, true)], foot := t.foot[b + size := size],
         place := (t.place - (if free then {p, n} else {p}))[b := Bin(1)])
  }

  lemma FreedAtMerged(t: Tags, p: int)
    requires NeighboursKnown(t, p)
    requires Sound(t) && InUse(t, p)
    ensures MergedStart(t, p) in Freed(t, p).place && ChunkSound(Freed(t, p), MergedStart(t, p))
  {
    var b, n := MergedStart(t, p), Next(t, p);
    At(t, p);
    At(t, b);
    At(t, n);
    assert t.head[b].pinuse;
    var t' := Freed(t, p);
    if n != t.top {
      var e := if ReadsFree(t, n) then Next(t, n) else n;
      assert t'.place[b] == Bin(1) && t'.head[b] == Head(e - b, true);
      assert e in t'.place && !t'.head[e].pinuse && t'.foot[e] == e - b;
      if e != n {
        At(t, e);
      }
    }
  }

  lemma FreedAtOther(t: Tags, p: int, q: int)
    requires NeighboursKnown(t, p)
    requires Sound(t) && InUse(t, p)
    requires q in Freed(t, p).place && q != MergedStart(t, p)
    ensures ChunkSound(Freed(t, p), q)
  {
    var b, n := MergedStart(t, p), Next(t, p);
    At(t, b);
    At(t, q);
    NoOverlap(t, q, b);
    NoOverlap(t, q, p);
    NoOverlap(t, q, n);
  }

  lemma FreedApart(t: Tags, p: int, a: int, c: int)
    requires NeighboursKnown(t, p)
    requires Sound(t) && InUse(t, p)
    requires a in Freed(t, p).place && c in Freed(t, p).place
    ensures a in Freed(t, p).head && Apart(Freed(t, p), a, c)
  {
    var b, n := MergedStart(t, p), Next(t, p);
    NoOverlap(t, a, c);
    if a == b {
      NoOverlap(t, p, c);
      NoOverlap(t, n, c);
    }
  }

  lemma FreedSound(t: Tags, p: int)
    requires Sound(t) && InUse(t, p)
    ensures NeighboursKnown(t, p) && Sound(Freed(t, p))
  {
    NeighboursRead(t, p);
    var b, n := MergedStart(t, p), Next(t, p);
    At(t, b);
    At(t, n);
    var t' := Freed(t, p);
    forall q | q in t'.place
      ensures ChunkSound(t', q) && Placed(t', q)
      ensures q != t'.top ==> Followed(t', q) && Tagged(t', q)
    {
      if q == b {
        FreedAtMerged(t, p);
      } else {
        FreedAtOther(t, p, q);
      }
    }
    forall a, c | a in t'.place && c in t'.place
      ensures Apart(t', a, c)
    {
      FreedApart(t, p, a, c);
    }
  }

  // ----- consequences for the program -----

  /** Every address of the arena lies in exactly one chunk. */
  lemma EveryAddressInOneChunk(t: Tags, a: int) returns (p: int)
    requires Tiling(t) && t.base <= a < Next(t, t.top)
    ensures p in t.place && p <= a < Next(t, p)
    ensures forall q :: q in t.place && q <= a < Next(t, q) ==> q == p
  {
    p := t.base;
    At(t, p);
    while a >= Next(t, p)
      invariant p in t.place && p <= a
      decreases a - p
    {
      At(t, p);
      At(t, Next(t, p));
      p := Next(t, p);
    }
    forall q | q in t.place && q <= a < Next(t, q)
      ensures q == p
    {
      NoOverlap(t, p, q);
    }
  }

  /** The bytes a program may use in a live chunk: from behind its own size word up to the next size word. */
  ghost predicate InPayload(t: Tags, p: int, a: int)
    requires p in t.head
  {
    p + 8 <= a < Next(t, p) + SIZE_SZ
  }

  /** No payload byte is shared with another payload, with a size word, with a footer in use,
      or with the two link words of a free chunk. */
  lemma PayloadIsPrivate(t: Tags, p: int, a: int)
    requires Sound(t) && p in t.place && t.place[p].Live? && InPayload(t, p, a)
    ensures forall q :: q in t.place && q != p && t.place[q].Live? ==> !InPayload(t, q, a)
    ensures forall q :: q in t.place ==> !(q + 4 <= a < q + 8)
    ensures forall q :: q in t.place && IsFree(t.place[q]) ==>
      !(q + 8 <= a < q + 16) && !(Next(t, q) <= a < Next(t, q) + 4)
    ensures forall q :: q in t.place && t.place[q].Fast? ==> !(q + 8 <= a < q + 12)
  {
    At(t, p);
    forall q | q in t.place
      ensures Placed(t, q) && Apart(t, p, q) && Apart(t, q, p)
      ensures IsFree(t.place[q]) ==> Next(t, q) != Next(t, p)
    {
      NoOverlap(t, p, q);
      At(t, q);
    }
  }
}
