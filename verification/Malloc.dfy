/** The boundary-tag allocator as configured for this system: no mmap, and an sbrk that only grows. */
module Malloc {
  import opened MallocSizes
  import opened BoundaryTags
  import opened Lists
  import opened FreeLists

  /** Tags, bins and fastbins tell one story. */
  ghost predicate Consistent(t: Tags, bins: seq<seq<int>>, fastbins: seq<seq<int>>) {
    Sound(t) && InBins(t.place, t.head, bins) && InFastBins(t.place, t.head, fastbins)
  }

  /** The chunks that belong to the program, with their sizes. */
  ghost function Lives(t: Tags): map<int, int> {
    map p | p in t.place && p in t.head && t.place[p].Live? :: t.head[p].size
  }

  ghost predicate NoFast(place: Places) { forall p :: p in place ==> !place[p].Fast? }

  ghost predicate NoFree(place: Places) { forall p :: p in place ==> !place[p].Bin? }

  /** No binned chunk could serve a request of nb bytes. */
  ghost predicate NoneFits(t: Tags, nb: int) {
    forall p :: p in t.place && t.place[p].Bin? && p in t.head ==> t.head[p].size < nb
  }

  /** No binned chunk other than `rest` is large enough for nb bytes and smaller than `taken`. */
  ghost predicate BestFit(t: Tags, nb: int, taken: int, rest: int) {
    forall p :: p in t.place && t.place[p].Bin? && p in t.head && p != rest && t.head[p].size >= nb ==>
        taken <= t.head[p].size
  }

  /** A bin is recorded in the bitmap whenever it is not empty. */
  ghost predicate MapCovers(bins: seq<seq<int>>, binmap: seq<Word>)
    requires |bins| == NBINS && |binmap| == BINMAP_SIZE + 1
  {
    && (forall i :: 2 <= i < NBINS && bins[i] != [] ==> binmap[i / BITS_PER_MAP][i % BITS_PER_MAP])
    && (forall j :: 0 <= j < BITS_PER_MAP ==> !binmap[BINMAP_SIZE][j])
  }

  // ----- steps of tags and lists together -----

  /** The lists after a step agree with the tags after it, as far as lists are concerned. */
  ghost predicate Listed(t: Tags, bins: seq<seq<int>>, fastbins: seq<seq<int>>) {
    InBins(t.place, t.head, bins) && InFastBins(t.place, t.head, fastbins)
  }

  lemma TakenWholeLists(t: Tags, bins: seq<seq<int>>, fastbins: seq<seq<int>>, p: int)
    requires p in t.place && IsFree(t.place[p]) && p in t.head && Next(t, p) in t.head
    requires InBins(t.place - {p}, t.head, bins) && InFastBins(t.place, t.head, fastbins)
    ensures Listed(TakeWhole(t, p), bins, fastbins)
    ensures Lives(TakeWhole(t, p)) == Lives(t)[p := Size(t, p)]
  {
    var t' := TakeWhole(t, p);
    SameBins(t.place - {p}, t.head, t'.place, t'.head, bins);
    SameFastBins(t.place, t.head, t'.place, t'.head, fastbins);
  }

  lemma TakenWhole(t: Tags, bins: seq<seq<int>>, fastbins: seq<seq<int>>, p: int)
    requires Sound(t) && p in t.place && IsFree(t.place[p])
    requires InBins(t.place - {p}, t.head, bins) && InFastBins(t.place, t.head, fastbins)
    ensures p in t.head && Next(t, p) in t.head
    ensures Consistent(TakeWhole(t, p), bins, fastbins)
    ensures Lives(TakeWhole(t, p)) == Lives(t)[p := Size(t, p)]
  {
    TakeWholeSound(t, p);
    TakenWholeLists(t, bins, fastbins, p);
  }

  lemma SplitLists(t: Tags, bins: seq<seq<int>>, fastbins: seq<seq<int>>, p: int, nb: int)
    requires p in t.place && IsFree(t.place[p]) && p in t.head && p + nb !in t.place
    requires InBins(t.place - {p}, t.head, bins) && InFastBins(t.place, t.head, fastbins)
    requires 0 < nb && Size(t, p) - nb >= MINSIZE
    ensures Listed(SplitFree(t, p, nb), bins[1 := [p + nb] + bins[1]], fastbins)
    ensures Lives(SplitFree(t, p, nb)) == Lives(t)[p := nb]
  {
    var t' := SplitFree(t, p, nb);
    var mid := t.place[p := Live];
    SameBins(t.place - {p}, t.head, mid, t'.head, bins);
    PushUnsortedIn(mid, t'.head, bins, p + nb);
    SameFastBins(t.place, t.head, t'.place, t'.head, fastbins);
  }

  lemma Split(t: Tags, bins: seq<seq<int>>, fastbins: seq<seq<int>>, p: int, nb: int)
    requires Sound(t) && p in t.place && IsFree(t.place[p])
    requires InBins(t.place - {p}, t.head, bins) && InFastBins(t.place, t.head, fastbins)
    requires nb % 8 == 0 && MINSIZE <= nb && Size(t, p) - nb >= MINSIZE
    ensures Consistent(SplitFree(t, p, nb), bins[1 := [p + nb] + bins[1]], fastbins)
    ensures Lives(SplitFree(t, p, nb)) == Lives(t)[p := nb]
    ensures p + nb !in t.place
  {
    SplitFreeSound(t, p, nb);
    SplitLists(t, bins, fastbins, p, nb);
  }

  lemma ToppedOffLists(t: Tags, bins: seq<seq<int>>, fastbins: seq<seq<int>>, nb: int)
    requires Listed(t, bins, fastbins) && t.top in t.place && t.place[t.top] == Top && t.top in t.head
    requires 0 < nb && t.top + nb !in t.place
    ensures Listed(SplitTop(t, nb), bins, fastbins)
    ensures Lives(SplitTop(t, nb)) == Lives(t)[t.top := nb]
  {
    var t' := SplitTop(t, nb);
    SameBins(t.place, t.head, t'.place, t'.head, bins);
    SameFastBins(t.place, t.head, t'.place, t'.head, fastbins);
  }

  lemma ToppedOff(t: Tags, bins: seq<seq<int>>, fastbins: seq<seq<int>>, nb: int)
    requires Consistent(t, bins, fastbins)
    requires nb % 8 == 0 && MINSIZE <= nb && Size(t, t.top) >= nb + MINSIZE
    ensures Consistent(SplitTop(t, nb), bins, fastbins)
    ensures Lives(SplitTop(t, nb)) == Lives(t)[t.top := nb]
    ensures t.top + nb !in t.place && t.top !in Lives(t)
  {
    SplitTopSound(t, nb);
    ToppedOffLists(t, bins, fastbins, nb);
  }

  lemma UnlinkKeeps(bins: seq<seq<int>>, p: int)
    ensures forall i, q :: 0 <= i < |bins| && q in Unlink(bins, p)[i] ==> q in bins[i]
  {
    forall i, q | 0 <= i < |bins| && q in Unlink(bins, p)[i]
      ensures q in bins[i]
    {
      RemoveKeeps(bins[i], p, q);
    }
  }

  lemma {:induction false} RemoveKeeps(s: seq<int>, p: int, q: int)
    requires q in Remove(s, p)
    ensures q in s
  {
    if s[0] != p && q != s[0] {
      RemoveKeeps(s[1..], p, q);
    }
  }

  /** The bins after freeing p: free neighbours unlinked, the merged chunk in front of the unsorted list. */
  function FreedBins(t: Tags, bins: seq<seq<int>>, p: int): (r: seq<seq<int>>)
    requires |bins| == NBINS
    requires p in t.head && (!t.head[p].pinuse ==> p in t.foot)
    requires var n := Next(t, p); n in t.head && (n != t.top ==> Next(t, n) in t.head)
    ensures |r| == NBINS
    ensures forall i, q :: 0 <= i < NBINS && q in r[i] ==> q in bins[i] || (i == 1 && q == MergedStart(t, p))
    ensures Next(t, p) != t.top ==> r[1] != [] && r[1][0] == MergedStart(t, p)
  {
    var b, n := MergedStart(t, p), Next(t, p);
    UnlinkKeeps(bins, b);
    UnlinkKeeps(Unlink(bins, b), n);
    UnlinkKeeps(bins, n);
    var back := if t.head[p].pinuse then bins else Unlink(bins, b);
    if n == t.top then back
    else
      var both := if ReadsFree(t, n) then Unlink(back, n) else back;
      both[1 := [b] + both[1]]
  }

  /** Unlinking the free neighbours of p leaves lists that know neither them nor p. */
  lemma NeighboursUnlinked(t: Tags, bins: seq<seq<int>>, p: int) returns (pl: Places, bs: seq<seq<int>>)
    requires NeighboursKnown(t, p) && InBins(t.place, t.head, bins) && p in t.place && t.place[p].Live?
    ensures |bs| == NBINS
    ensures var n := Next(t, p); var forward := n != t.top && ReadsFree(t, n);
            && pl == t.place - {p} - {MergedStart(t, p)} - (if forward then {n} else {})
            && FreedBins(t, bins, p) == (if n == t.top then bs else bs[1 := [MergedStart(t, p)] + bs[1]])
    ensures InBins(pl, t.head, bs)
  {
    var b, n := MergedStart(t, p), Next(t, p);
    pl, bs := t.place - {p}, bins;
    SameBins(t.place, t.head, pl, t.head, bs);
    if b != p {
      UnlinkIn(pl, t.head, bs, b);
      bs := Unlink(bs, b);
    }
    pl := pl - {b};
    assert b == p ==> pl == t.place - {p};
    if n != t.top && ReadsFree(t, n) {
      UnlinkIn(pl, t.head, bs, n);
      bs := Unlink(bs, n);
      pl := pl - {n};
    } else {
      assert pl - {} == pl;
    }
  }

  lemma FreedIntoTopLists(t: Tags, bins: seq<seq<int>>, p: int)
    requires InBins(t.place, t.head, bins) && p in t.place && t.place[p].Live?
    requires NeighboursKnown(t, p) && Next(t, p) == t.top && t.place[t.top] == Top
    ensures InBins(Freed(t, p).place, Freed(t, p).head, FreedBins(t, bins, p))
  {
    var t' := Freed(t, p);
    var pl, bs := NeighboursUnlinked(t, bins, p);
    forall q | q in pl && pl[q].Bin?
      ensures SameChunk(pl, t.head, t'.place, t'.head, q)
    {
    }
    SameBins(pl, t.head, t'.place, t'.head, bs);
  }

  lemma SameCut(m: Places, p: int, b: int, n: int, free: bool, pl: Place)
    ensures (m - {p} - {b} - (if free then {n} else {}))[b := pl] == (m - (if free then {p, n} else {p}))[b := pl]
  {
  }

  lemma FreedIntoUnsortedLists(t: Tags, bins: seq<seq<int>>, p: int)
    requires InBins(t.place, t.head, bins) && p in t.place && t.place[p].Live?
    requires NeighboursKnown(t, p) && Next(t, p) != t.top && MergedStart(t, p) <= p < Next(t, p)
    requires MINSIZE <= Size(t, p) && MINSIZE <= Size(t, Next(t, p))
    ensures InBins(Freed(t, p).place, Freed(t, p).head, FreedBins(t, bins, p))
  {
    var t' := Freed(t, p);
    var b := MergedStart(t, p);
    var pl, bs := NeighboursUnlinked(t, bins, p);
    forall q | q in pl && pl[q].Bin?
      ensures SameChunk(pl, t.head, pl, t'.head, q)
    {
    }
    SameBins(pl, t.head, pl, t'.head, bs);
    PushUnsortedIn(pl, t'.head, bs, b);
    SameCut(t.place, p, b, Next(t, p), ReadsFree(t, Next(t, p)), Bin(1));
  }

  lemma FreedFastLists(t: Tags, fastbins: seq<seq<int>>, p: int)
    requires InFastBins(t.place, t.head, fastbins) && p in t.place && t.place[p].Live?
    requires NeighboursKnown(t, p) && t.top in t.place && t.place[t.top] == Top
    ensures InFastBins(Freed(t, p).place, Freed(t, p).head, fastbins)
    ensures Lives(Freed(t, p)) == Lives(t) - {p}
  {
    var t' := Freed(t, p);
    SameFastBins(t.place, t.head, t'.place, t'.head, fastbins);
  }

  lemma FreedConsistent(t: Tags, bins: seq<seq<int>>, fastbins: seq<seq<int>>, p: int)
    requires Consistent(t, bins, fastbins) && p in t.place && t.place[p].Live?
    ensures NeighboursKnown(t, p)
    ensures Consistent(Freed(t, p), FreedBins(t, bins, p), fastbins)
    ensures Lives(Freed(t, p)) == Lives(t) - {p}
  {
    FreedSound(t, p);
    At(t, p);
    At(t, Next(t, p));
    if Next(t, p) == t.top {
      FreedIntoTopLists(t, bins, p);
    } else {
      FreedIntoUnsortedLists(t, bins, p);
    }
    FreedFastLists(t, fastbins, p);
  }

  /** A chunk leaves the unsorted list for its bin. */
  lemma Rebinned(t: Tags, bins: seq<seq<int>>, fastbins: seq<seq<int>>, p: int, i: nat, k: nat)
    requires Sound(t) && p in t.place && IsFree(t.place[p])
    requires InBins(t.place - {p}, t.head, bins) && InFastBins(t.place, t.head, fastbins)
    requires Size(t, p) >= MINSIZE && i == BinIndex(Size(t, p)) && 2 <= i < NBINS
    requires forall a :: 0 <= a < |bins[i]| ==> bins[i][a] in t.head
    requires k == InsertPosition(t.head, bins[i], Size(t, p))
    ensures Consistent(Move(t, p, Bin(i)), bins[i := bins[i][..k] + [p] + bins[i][k..]], fastbins)
    ensures Lives(Move(t, p, Bin(i))) == Lives(t)
  {
    At(t, p);
    MoveSound(t, p, Bin(i));
    InsertIn(t.place - {p}, t.head, bins, p, i, k);
    hide InBins, InFastBins, Sound;
    assert (t.place - {p})[p := Bin(i)] == t.place[p := Bin(i)];
    SameFastBins(t.place, t.head, t.place[p := Bin(i)], t.head, fastbins);
  }

  /** Taking the last chunk of a bin is unlinking it. */
  lemma DropLast(place: Places, head: Heads, bins: seq<seq<int>>, i: nat)
    requires InBins(place, head, bins) && i < NBINS && bins[i] != []
    ensures var s := bins[i]; var p := s[|s| - 1];
            && p in place && place[p] == Bin(i)
            && InBins(place - {p}, head, bins[i := s[..|s| - 1]])
  {
    var s := bins[i];
    var p := s[|s| - 1];
    assert p in bins[i];
    UnlinkIn(place, head, bins, p);
    RemoveLast(s);
    forall j | 0 <= j < NBINS
      ensures Unlink(bins, p)[j] == bins[i := s[..|s| - 1]][j]
    {
      if j != i {
        forall q | q in bins[j]
          ensures q != p
        {
          assert place[q] == Bin(j);
        }
      }
    }
    assert Unlink(bins, p) == bins[i := s[..|s| - 1]];
  }
}
