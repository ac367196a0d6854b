/** The lists of free chunks: bins (bin 1 holds unsorted chunks) and fastbins. */
module FreeLists {
  import opened MallocSizes
  import opened BoundaryTags
  import opened Lists

  type Places = map<int, Place>
  type Heads = map<int, Head>

  /** The heads of a list are in non-increasing order of size. */
  ghost predicate Descending(head: Heads, s: seq<int>) {
    && (forall a :: 0 <= a < |s| ==> s[a] in head)
    && (forall a, b :: 0 <= a < b < |s| ==> head[s[a]].size >= head[s[b]].size)
  }

  /** A chunk placed in a bin is in that bin's list, and the bin is the one for its size. */
  ghost predicate Binned(place: Places, head: Heads, bins: seq<seq<int>>, p: int)
    requires p in place && |bins| == NBINS
  {
    place[p].Bin? ==>
      && 1 <= place[p].bin < NBINS && p in bins[place[p].bin]
      && p in head && head[p].size >= MINSIZE
      && (place[p].bin != 1 ==> head[p].size % 8 == 0 && BinIndex(head[p].size) == place[p].bin)
  }

  /** Each free chunk is in exactly one bin, no bin holds anything else, and large bins are sorted. */
  ghost predicate InBins(place: Places, head: Heads, bins: seq<seq<int>>) {
    && |bins| == NBINS
    && (forall i, p :: 0 <= i < NBINS && p in bins[i] ==> p in place && place[p] == Bin(i))
    && (forall p {:trigger Binned(place, head, bins, p)} :: p in place ==> Binned(place, head, bins, p))
    && (forall i :: 0 <= i < NBINS ==> NoDups(bins[i]))
    && (forall i :: NSMALLBINS <= i < NBINS ==> Descending(head, bins[i]))
  }

  /** Each chunk waiting in a fastbin is in exactly the one for its size. */
  ghost predicate InFastBin(place: Places, head: Heads, fastbins: seq<seq<int>>, p: int)
    requires p in place && |fastbins| == NFASTBINS
  {
    place[p].Fast? ==>
      && place[p].fast < NFASTBINS && p in fastbins[place[p].fast]
      && p in head && head[p].size <= MAX_FAST && place[p].fast == FastBinIndex(head[p].size)
      && head[p].size % 8 == 0
  }

  ghost predicate InFastBins(place: Places, head: Heads, fastbins: seq<seq<int>>) {
    && |fastbins| == NFASTBINS
    && (forall i, p :: 0 <= i < NFASTBINS && p in fastbins[i] ==> p in place && place[p] == Fast(i))
    && (forall p {:trigger InFastBin(place, head, fastbins, p)} :: p in place ==> InFastBin(place, head, fastbins, p))
    && (forall i :: 0 <= i < NFASTBINS ==> NoDups(fastbins[i]))
  }

  // ----- bins -----

  /** Take a chunk off whichever bin it is in. */
  function Unlink(bins: seq<seq<int>>, p: int): (r: seq<seq<int>>)
    ensures |r| == |bins|
  {
    seq(|bins|, i requires 0 <= i < |bins| => Remove(bins[i], p))
  }

  /** Unlinking touches only the bin that holds the chunk, and there only the chunk. */
  lemma UnlinkMembers(place: Places, head: Heads, bins: seq<seq<int>>, p: int, i: nat)
    requires InBins(place, head, bins) && i < NBINS
    ensures var r := Unlink(bins, p)[i]; NoDups(r) && forall q :: q in r <==> q in bins[i] && q != p
    ensures i >= NSMALLBINS ==> Descending(head, Unlink(bins, p)[i])
  {
    RemoveMembers(bins[i], p);
    if i >= NSMALLBINS && p in bins[i] {
      var k := RemoveCutsOnePosition(bins[i], p);
      DescendingWithout(head, bins[i], k);
    }
  }

  lemma DescendingWithout(head: Heads, s: seq<int>, k: nat)
    requires Descending(head, s) && k < |s|
    ensures Descending(head, s[..k] + s[k + 1..])
  {
  }

  lemma UnlinkIn(place: Places, head: Heads, bins: seq<seq<int>>, p: int)
    requires InBins(place, head, bins)
    ensures InBins(place - {p}, head, Unlink(bins, p))
  {
    var place', bins' := place - {p}, Unlink(bins, p);
    forall i | 0 <= i < NBINS
      ensures NoDups(bins'[i]) && forall q :: q in bins'[i] <==> q in bins[i] && q != p
      ensures i >= NSMALLBINS ==> Descending(head, bins'[i])
    {
      UnlinkMembers(place, head, bins, p, i);
    }
    forall q | q in place'
      ensures Binned(place', head, bins', q)
    {
      assert Binned(place, head, bins, q);
    }
  }

  lemma PushUnsortedIn(place: Places, head: Heads, bins: seq<seq<int>>, p: int)
    requires InBins(place, head, bins) && p !in place && p in head && head[p].size >= MINSIZE
    ensures InBins(place[p := Bin(1)], head, bins[1 := [p] + bins[1]])
  {
    var place', bins' := place[p := Bin(1)], bins[1 := [p] + bins[1]];
    assert p !in bins[1];
    forall q | q in place'
      ensures Binned(place', head, bins', q)
    {
      if q != p { assert Binned(place, head, bins, q); }
    }
  }

  /** Where the unsorted-list drain puts a chunk in its bin: at the front of a small bin, and in a large bin
      behind all larger chunks, at the very end when no listed chunk is smaller. */
  function InsertPosition(head: Heads, s: seq<int>, size: int): (k: nat)
    requires forall a :: 0 <= a < |s| ==> s[a] in head
    ensures k <= |s| && (InSmallBinRange(size) ==> k == 0)
    ensures !InSmallBinRange(size) && s != [] && size <= head[s[|s| - 1]].size ==> k == |s|
    ensures !InSmallBinRange(size) && s != [] && size > head[s[|s| - 1]].size ==>
              k < |s| && head[s[k]].size <= size && forall a :: 0 <= a < k ==> head[s[a]].size > size
  {
    if InSmallBinRange(size) || s == [] then 0
    else if size <= head[s[|s| - 1]].size then |s|
    else SkipLarger(head, s, size)
  }

  function SkipLarger(head: Heads, s: seq<int>, size: int): (k: nat)
    requires forall a :: 0 <= a < |s| ==> s[a] in head
    ensures k <= |s|
    ensures forall a :: 0 <= a < k ==> head[s[a]].size > size
    ensures k < |s| ==> head[s[k]].size <= size
  {
    if s == [] || head[s[0]].size <= size then 0 else 1 + SkipLarger(head, s[1..], size)
  }

  lemma InsertKeepsDescending(head: Heads, s: seq<int>, p: int, k: nat)
    requires Descending(head, s) && p in head && !InSmallBinRange(head[p].size)
    requires k == InsertPosition(head, s, head[p].size)
    ensures Descending(head, s[..k] + [p] + s[k..])
  {
  }

  lemma Inserted(s: seq<int>, p: int, k: nat)
    requires NoDups(s) && p !in s && k <= |s|
    ensures NoDups(s[..k] + [p] + s[k..]) && forall q :: q in s[..k] + [p] + s[k..] <==> q in s || q == p
  {
    assert s == s[..k] + s[k..];
  }

  lemma InsertIn(place: Places, head: Heads, bins: seq<seq<int>>, p: int, i: nat, k: nat)
    requires InBins(place, head, bins) && p !in place && p in head
    requires head[p].size >= MINSIZE && head[p].size % 8 == 0 && i == BinIndex(head[p].size)
    requires 2 <= i < NBINS
    requires forall a :: 0 <= a < |bins[i]| ==> bins[i][a] in head
    requires k == InsertPosition(head, bins[i], head[p].size)
    ensures InBins(place[p := Bin(i)], head, bins[i := bins[i][..k] + [p] + bins[i][k..]])
  {
    var s := bins[i];
    var s' := s[..k] + [p] + s[k..];
    var place', bins' := place[p := Bin(i)], bins[i := s'];
    assert p !in s;
    Inserted(s, p, k);
    BinIndexRange(head[p].size);
    if i >= NSMALLBINS {
      InsertKeepsDescending(head, s, p, k);
    }
    forall q | q in place'
      ensures Binned(place', head, bins', q)
    {
      if q != p { assert Binned(place, head, bins, q); }
    }
  }

  /** A listed chunk keeps its place and its size. */
  ghost predicate SameChunk(place: Places, head: Heads, place': Places, head': Heads, p: int)
    requires p in place
  {
    p in place' && place'[p] == place[p] && (p in head ==> p in head' && head'[p].size == head[p].size)
  }

  /** Chunks outside bins may come, go and change without the bins noticing. */
  lemma SameBins(place: Places, head: Heads, place': Places, head': Heads, bins: seq<seq<int>>)
    requires InBins(place, head, bins)
    requires forall p {:trigger SameChunk(place, head, place', head', p)} ::
      p in place && place[p].Bin? ==> SameChunk(place, head, place', head', p)
    requires forall p :: p in place' && place'[p].Bin? ==> p in place && place[p] == place'[p]
    ensures InBins(place', head', bins)
  {
    forall i, p | 0 <= i < NBINS && p in bins[i]
      ensures p in place' && place'[p] == Bin(i)
    {
      assert SameChunk(place, head, place', head', p);
    }
    forall i | NSMALLBINS <= i < NBINS
      ensures Descending(head', bins[i])
    {
      forall a | 0 <= a < |bins[i]|
        ensures bins[i][a] in head' && head'[bins[i][a]].size == head[bins[i][a]].size
      {
        var p := bins[i][a];
        assert p in bins[i];
        assert p in place && place[p].Bin? && Binned(place, head, bins, p);
        assert SameChunk(place, head, place', head', p);
      }
    }
    forall q | q in place'
      ensures Binned(place', head', bins, q)
    {
      if place'[q].Bin? {
        assert Binned(place, head, bins, q) && SameChunk(place, head, place', head', q);
      }
    }
  }

  // ----- fastbins -----

  lemma PushFastIn(place: Places, head: Heads, fastbins: seq<seq<int>>, p: int, i: nat)
    requires InFastBins(place, head, fastbins) && p in place && !place[p].Fast?
    requires p in head && head[p].size <= MAX_FAST && head[p].size % 8 == 0 && i < NFASTBINS
    requires i == FastBinIndex(head[p].size)
    ensures InFastBins(place[p := Fast(i)], head, fastbins[i := [p] + fastbins[i]])
  {
    var place', fb' := place[p := Fast(i)], fastbins[i := [p] + fastbins[i]];
    assert p !in fastbins[i];
    forall q | q in place'
      ensures InFastBin(place', head, fb', q)
    {
      if q != p { assert InFastBin(place, head, fastbins, q); }
    }
  }

  lemma PopFastIn(place: Places, head: Heads, fastbins: seq<seq<int>>, i: nat, pl: Place)
    requires InFastBins(place, head, fastbins) && i < NFASTBINS && fastbins[i] != [] && !pl.Fast?
    ensures InFastBins(place[fastbins[i][0] := pl], head, fastbins[i := fastbins[i][1..]])
  {
    var p := fastbins[i][0];
    var place', fb' := place[p := pl], fastbins[i := fastbins[i][1..]];
    assert fastbins[i] == [p] + fb'[i];
    assert p !in fb'[i] && p in fastbins[i];
    forall j, q | 0 <= j < NFASTBINS && q in fb'[j]
      ensures q in place' && place'[q] == Fast(j)
    {
      assert q in fastbins[j] && place[q] == Fast(j);
      assert place[p] == Fast(i);
    }
    forall q | q in place'
      ensures InFastBin(place', head, fb', q)
    {
      if q != p { assert InFastBin(place, head, fastbins, q); }
    }
  }

  lemma SameFastBins(place: Places, head: Heads, place': Places, head': Heads, fastbins: seq<seq<int>>)
    requires InFastBins(place, head, fastbins)
    requires forall p {:trigger SameChunk(place, head, place', head', p)} ::
      p in place && place[p].Fast? ==> SameChunk(place, head, place', head', p)
    requires forall p :: p in place' && place'[p].Fast? ==> p in place && place[p] == place'[p]
    ensures InFastBins(place', head', fastbins)
  {
    forall i, p | 0 <= i < NFASTBINS && p in fastbins[i]
      ensures p in place' && place'[p] == Fast(i)
    {
      assert SameChunk(place, head, place', head', p);
    }
    forall q | q in place'
      ensures InFastBin(place', head', fastbins, q)
    {
      if place'[q].Fast? {
        assert InFastBin(place, head, fastbins, q) && SameChunk(place, head, place', head', q);
      }
    }
  }
}
