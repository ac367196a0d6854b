/** The words of the kernel heap: marks around live blocks, and links threaded through free chunks. */
module KernelMemory {
  import opened Integers
  import opened Lists
  import opened Dyadic
  import opened Pages
  import opened KernelPieces

  const TZL_SIZE := 48
  const MEM_SMALL := 0
  const MEM_MEDIUM := 1
  const MEM_LARGE := 2

  /** Memory as the words last stored whole; a word overlapped by a later store is no longer known. */
  type Memory = map<int, int>

  function Write32(m: Memory, a: int, w: int): Memory {
    (m - {a - 3, a - 2, a - 1, a + 1, a + 2, a + 3})[a := w]
  }

  /** A byte stored by the program: every word it belongs to is no longer known. */
  function WriteByte(m: Memory, a: int): Memory { m - {a - 3, a - 2, a - 1, a} }

  ghost predicate WordAt(m: Memory, a: int, w: int) { a in m && m[a] == w }

  /** Words outside a range are what they were. */
  ghost predicate SameOutside(m: Memory, m': Memory, from: int, to: int) {
    forall a :: a in m && (a + 4 <= from || to <= a) ==> a in m' && m'[a] == m[a]
  }

  /** hash_ptr: the product with 2**32 - 17, modulo the word size. */
  function HashPtr(p: int): int { (p * 4294967279) % WORD }

  function Magic(p: int, kind: nat): int { HashPtr(p) - HashPtr(p) % 4 + kind }

  /** The two marks of a block: size and magic in front, magic and size behind. */
  ghost predicate Marked(m: Memory, p: int, size: int, kind: nat) {
    && WordAt(m, p, size) && WordAt(m, p + 4, Magic(p, kind))
    && WordAt(m, p + size - 8, Magic(p, kind)) && WordAt(m, p + size - 4, size)
  }

  function KindOf(pc: Piece): nat
    requires IsLive(pc)
  {
    if pc.LiveSmall? then MEM_SMALL else if pc.LiveMedium? then MEM_MEDIUM else MEM_LARGE
  }

  ghost predicate PieceMarked(m: Memory, p: int, pc: Piece) { IsLive(pc) ==> Marked(m, p, pc.size, KindOf(pc)) }

  ghost predicate LinkAt(m: Memory, s: seq<int>, j: nat)
    requires j < |s|
  {
    s[j] > 0 && WordAt(m, s[j], if j + 1 < |s| then s[j + 1] else 0)
  }

  /** A NULL-terminated list threaded through the first words of its chunks. */
  ghost predicate Linked(m: Memory, head: int, s: seq<int>) {
    && head == (if s == [] then 0 else s[0])
    && forall j {:trigger LinkAt(m, s, j)} :: 0 <= j < |s| ==> LinkAt(m, s, j)
  }

  /** A free medium chunk is in exactly the list of its order. */
  ghost predicate Listed(ps: Pieces, lists: seq<seq<int>>) {
    && |lists| == TZL_SIZE
    && (forall i, p :: 0 <= i < TZL_SIZE && p in lists[i] ==> p in ps && ps[p] == FreeMedium(i))
    && (forall p :: p in ps && ps[p].FreeMedium? ==> ps[p].order < TZL_SIZE && p in lists[ps[p].order])
    && (forall i :: 0 <= i < TZL_SIZE ==> NoDups(lists[i]))
  }

  ghost predicate Pooled(ps: Pieces, pool: seq<int>) {
    && (forall p :: p in pool <==> p in ps && ps[p].FreeSmall?)
    && NoDups(pool)
  }

  /** Memory holds the links and the marks. */
  ghost predicate Stored(m: Memory, ps: Pieces, tzl: seq<int>, lists: seq<seq<int>>, chunkpool: int, pool: seq<int>) {
    && |tzl| == |lists| == TZL_SIZE
    && (forall i :: 0 <= i < TZL_SIZE ==> Linked(m, tzl[i], lists[i]))
    && Linked(m, chunkpool, pool)
    && (forall p {:trigger PieceMarked(m, p, ps[p])} :: p in ps ==> PieceMarked(m, p, ps[p]))
  }

  // ----- frames -----

  lemma WriteSame(m: Memory, a: int, w: int, from: int, to: int)
    requires from <= a && a + 4 <= to
    ensures SameOutside(m, Write32(m, a, w), from, to)
  {
  }

  lemma LinkedKept(m: Memory, m': Memory, head: int, s: seq<int>)
    requires Linked(m, head, s)
    requires forall x :: x in s && x in m ==> x in m' && m'[x] == m[x]
    ensures Linked(m', head, s)
  {
    forall j | 0 <= j < |s|
      ensures LinkAt(m', s, j)
    {
      assert LinkAt(m, s, j);
      assert s[j] in s;
    }
  }

  lemma MarkKept(m: Memory, m': Memory, ps: Pieces, p: int, q: int, pc: Piece)
    requires Separate(ps) && p in ps && q in ps && p != q && Sized(pc) && Extent(pc) <= Extent(ps[q])
    requires SameOutside(m, m', p, p + Extent(ps[p])) && PieceMarked(m, q, pc)
    ensures PieceMarked(m', q, pc)
  {
    Between(ps, p, q);
    if IsLive(pc) {
      ExtentHoldsSize(pc);
    }
  }

  lemma ExtentHoldsSize(pc: Piece)
    requires Sized(pc) && IsLive(pc)
    ensures MARK_SIZE <= pc.size <= Extent(pc)
  {
  }

  /** Stores inside one piece that is neither listed nor live leave all links and marks alone. */
  lemma StoredKept(m: Memory, m': Memory, ps: Pieces, tzl: seq<int>, lists: seq<seq<int>>, chunkpool: int,
      pool: seq<int>, p: int)
    requires Stored(m, ps, tzl, lists, chunkpool, pool) && Listed(ps, lists) && Pooled(ps, pool) && Separate(ps)
    requires p in ps && !ps[p].FreeMedium? && !ps[p].FreeSmall? && !IsLive(ps[p])
    requires SameOutside(m, m', p, p + Extent(ps[p]))
    ensures Stored(m', ps, tzl, lists, chunkpool, pool)
  {
    forall i | 0 <= i < TZL_SIZE
      ensures Linked(m', tzl[i], lists[i])
    {
      ListKept(m, m', ps, p, tzl[i], lists[i]);
    }
    ListKept(m, m', ps, p, chunkpool, pool);
    forall q | q in ps
      ensures PieceMarked(m', q, ps[q])
    {
      assert PieceMarked(m, q, ps[q]);
      if q != p {
        MarkKept(m, m', ps, p, q, ps[q]);
      }
    }
  }

  /** Stores in a range that no piece touches leave all links and marks alone. */
  lemma StoredApart(m: Memory, m': Memory, ps: Pieces, tzl: seq<int>, lists: seq<seq<int>>, chunkpool: int,
      pool: seq<int>,
                    from: int, to: int)
    requires Stored(m, ps, tzl, lists, chunkpool, pool) && Listed(ps, lists) && Pooled(ps, pool) && Separate(ps)
    requires forall q :: q in ps ==> q + Extent(ps[q]) <= from || to <= q
    requires SameOutside(m, m', from, to)
    ensures Stored(m', ps, tzl, lists, chunkpool, pool)
  {
    forall i | 0 <= i < TZL_SIZE
      ensures Linked(m', tzl[i], lists[i])
    {
      ListApart(m, m', ps, tzl[i], lists[i], from, to);
    }
    ListApart(m, m', ps, chunkpool, pool, from, to);
    forall q | q in ps
      ensures PieceMarked(m', q, ps[q])
    {
      assert PieceMarked(m, q, ps[q]);
      if IsLive(ps[q]) {
        ExtentHoldsSize(ps[q]);
      }
    }
  }

  lemma ListApart(m: Memory, m': Memory, ps: Pieces, head: int, s: seq<int>, from: int, to: int)
    requires Separate(ps) && SameOutside(m, m', from, to)
    requires forall q :: q in ps ==> q + Extent(ps[q]) <= from || to <= q
    requires Linked(m, head, s) && forall x :: x in s ==> x in ps
    ensures Linked(m', head, s)
  {
    forall x | x in s && x in m
      ensures x in m' && m'[x] == m[x]
    {
      ExtentAtLeast16(ps[x]);
    }
    LinkedKept(m, m', head, s);
  }

  lemma ListKept(m: Memory, m': Memory, ps: Pieces, p: int, head: int, s: seq<int>)
    requires Separate(ps) && p in ps && SameOutside(m, m', p, p + Extent(ps[p]))
    requires Linked(m, head, s) && forall x :: x in s ==> x in ps && x != p
    ensures Linked(m', head, s)
  {
    forall x | x in s && x in m
      ensures x in m' && m'[x] == m[x]
    {
      Between(ps, p, x);
      ExtentAtLeast16(ps[x]);
    }
    LinkedKept(m, m', head, s);
  }

  // ----- list steps -----

  lemma PopLinked(m: Memory, head: int, s: seq<int>)
    requires Linked(m, head, s) && s != []
    ensures head == s[0] > 0 && head in m && Linked(m, m[head], s[1..])
  {
    assert LinkAt(m, s, 0);
    forall j | 0 <= j < |s| - 1
      ensures LinkAt(m, s[1..], j)
    {
      assert LinkAt(m, s, j + 1);
    }
  }

  lemma PushLinked(m: Memory, head: int, s: seq<int>, p: int)
    requires Linked(m, head, s) && p > 0 && WordAt(m, p, head)
    ensures Linked(m, p, [p] + s)
  {
    var s' := [p] + s;
    forall j | 0 <= j < |s'|
      ensures LinkAt(m, s', j)
    {
      if j > 0 {
        assert LinkAt(m, s, j - 1);
      }
    }
  }

  /** The list without its j-th chunk, after the link before it is redirected. */
  lemma CutLinked(m: Memory, m': Memory, head: int, s: seq<int>, j: nat)
    requires Linked(m, head, s) && j < |s| && NoDups(s)
    requires forall x :: x in s && (j == 0 || x != s[j - 1]) && x in m ==> x in m' && m'[x] == m[x]
    requires j > 0 ==> s[j] in m && WordAt(m', s[j - 1], m[s[j]])
    ensures s[j] in m && Linked(m', if j == 0 then m[s[j]] else head, s[..j] + s[j + 1..])
  {
    var s' := s[..j] + s[j + 1..];
    assert LinkAt(m, s, j);
    forall k | 0 <= k < |s'|
      ensures LinkAt(m', s', k)
    {
      var i := if k < j then k else k + 1;
      assert LinkAt(m, s, i) && s[i] in s;
    }
  }
}
