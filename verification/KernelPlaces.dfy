/** Where the kernel heap takes a block from: which chunk, and when there is none. */
module KernelPlaces {
  import opened Integers
  import opened Lists
  import opened Dyadic
  import opened Pages
  import opened KernelPieces
  import opened KernelMemory
  import opened KernelSound

  /** The lowest run of enough free pages behind the bitmap's own starts at page i. */
  ghost predicate FirstRun(used: seq<bool>, meta: nat, count: nat, i: nat) {
    i >= meta && FreeRun(used, i, count) && forall j: nat :: meta <= j < i ==> !FreeRun(used, j, count)
  }

  ghost predicate NoRun(used: seq<bool>, meta: nat, count: nat) {
    forall j: nat :: j >= meta ==> !FreeRun(used, j, count)
  }

  /** What page_alloc gives, and the pages in use then: the lowest run and exactly that, NULL if and only if there is
      none. */
  ghost predicate PageAt(v: View, used: seq<bool>, meta: nat, size: nat, base: int)
    requires size > 0
  {
    if base == 0 then NoRun(v.used, meta, PageCountPadded(size)) && used == v.used
    else exists i: nat :: TakesRun(v, used, meta, PageCountPadded(size), base, i)
  }

  ghost predicate TakesRun(v: View, used: seq<bool>, meta: nat, count: nat, base: int, i: nat) {
    base == v.heap + i * PAGE_SIZE && FirstRun(v.used, meta, count, i) && used == SetRun(v.used, i, count, true)
  }

  /** The first order from i on whose list is not empty; TZL_SIZE when all are. */
  function Nearest(lists: seq<seq<int>>, i: nat): (k: nat)
    requires |lists| == TZL_SIZE && i <= TZL_SIZE
    ensures i <= k <= TZL_SIZE && (k < TZL_SIZE ==> lists[k] != []) && forall j :: i <= j < k ==> lists[j] == []
    decreases TZL_SIZE - i
  {
    if i == TZL_SIZE || lists[i] != [] then i else Nearest(lists, i + 1)
  }

  /** A block that page_alloc gave, rounded up to the next multiple of its order; NULL when it gave none. */
  function RoundedUp(base: int, order: nat): int { if base == 0 then 0 else base + (Exp2(order) - base % Exp2(order)) }

  /** The chunk that serves an order: the first one of the smallest chunks that are large enough, else a new block, of
      the next order that blocks grow to; NULL exactly when no chunk is large enough and no pages are left for one. */
  ghost predicate MediumAt(v: View, used: seq<bool>, meta: nat, next: nat, index: nat, chunk: int) {
    && |v.lists| == TZL_SIZE && index < TZL_SIZE
    && var k := Nearest(v.lists, index);
    if k < TZL_SIZE then chunk == v.lists[k][0] && used == v.used
        else NewBlockAt(v, used, meta, NewOrder(next, index), chunk)
  }

  ghost predicate NewBlockAt(v: View, used: seq<bool>, meta: nat, order: nat, chunk: int) {
    exists base :: PageAt(v, used, meta, 2 * Exp2(order), base) && chunk == RoundedUp(base, order)
  }

  function NewOrder(next: nat, index: nat): nat {
    if index >= FIRST_EXPONENT + next then index else FIRST_EXPONENT + next
  }

  /** The chunk that serves a small request: the first one of the pool, else the first one of new pages. */
  ghost predicate SmallAt(v: View, used: seq<bool>, meta: nat, next: nat, chunk: int) {
    if v.pool != [] then chunk == v.pool[0] && used == v.used
    else PageAt(v, used, meta, FIRST_ALLOC_SMALL * Exp2(next), chunk)
  }

  /** A request is served by the smallest order that holds it. */
  ghost predicate MediumFor(v: View, used: seq<bool>, meta: nat, next: nat, size: nat, chunk: int) {
    exists index: nat :: LeastOrder(size, index) && MediumAt(v, used, meta, next, index, chunk)
  }

  /** Where a request is served from: nothing for size 0, whole pages from LARGEALLOC on, the pool up to SMALLALLOC, and
      the buddy lists between. */
  ghost predicate PlaceOf(v: View, used: seq<bool>, meta: nat, small: nat, medium: nat, size: nat, chunk: int) {
    if size == 0 then chunk == 0 && used == v.used
    else if size <= SMALLALLOC then SmallAt(v, used, meta, small, chunk)
    else if size < LARGEALLOC then MediumFor(v, used, meta, medium, size + MARK_SIZE, chunk)
    else PageAt(v, used, meta, size + MARK_SIZE, chunk)
  }

  lemma FitsInBlock(v: View, next: nat, bytes: nat, k: nat, p: int)
    requires Sound(v, 0) && BlockSizes(v.bs, next, bytes) && |v.lists| == TZL_SIZE && k < TZL_SIZE && p in v.lists[k]
    ensures k < FIRST_EXPONENT + next
  {
    assert p in v.ps && v.ps[p] == FreeMedium(k);
    assert InBlock(v.ps, v.bs, p);
    var b :| Inside(v.bs, b, p, k);
  }

  /** Blocks are smaller than the next one, and so are the chunks in them. */
  lemma NoneBeyond(v: View, next: nat, bytes: nat)
    requires Sound(v, 0) && BlockSizes(v.bs, next, bytes)
    ensures |v.lists| == TZL_SIZE
    ensures forall k: nat :: FIRST_EXPONENT + next <= k < TZL_SIZE ==> v.lists[k] == []
  {
    forall k: nat | FIRST_EXPONENT + next <= k < TZL_SIZE
      ensures v.lists[k] == []
    {
      if v.lists[k] != [] {
        FitsInBlock(v, next, bytes, k, v.lists[k][0]);
      }
    }
  }

  lemma NewBlockIs(v: View, used: seq<bool>, meta: nat, order: nat, base: int)
    requires PageAt(v, used, meta, 2 * Exp2(order), base)
    ensures NewBlockAt(v, used, meta, order, RoundedUp(base, order)) && RoundedUp(0, order) == 0
  {
  }

  lemma MediumHere(v: View, meta: nat, next: nat, index: nat)
    requires |v.lists| == TZL_SIZE && index < TZL_SIZE && v.lists[index] != []
    ensures Nearest(v.lists, index) == index && MediumAt(v, v.used, meta, next, index, v.lists[index][0])
  {
  }

  lemma MediumNew(v: View, used: seq<bool>, meta: nat, next: nat, index: nat, chunk: int)
    requires |v.lists| == TZL_SIZE && FIRST_EXPONENT + next <= index < TZL_SIZE
    requires NewBlockAt(v, used, meta, index, chunk)
    requires forall k: nat :: FIRST_EXPONENT + next <= k < TZL_SIZE ==> v.lists[k] == []
    ensures Nearest(v.lists, index) == TZL_SIZE && MediumAt(v, used, meta, next, index, chunk)
  {
  }

  /** What serves the next order serves this one, when this one has no chunk of its own. */
  lemma MediumAbove(v: View, used: seq<bool>, meta: nat, next: nat, index: nat, chunk: int)
    requires MediumAt(v, used, meta, next, index + 1, chunk) && v.lists[index] == [] && index < FIRST_EXPONENT + next
    ensures Nearest(v.lists, index) == Nearest(v.lists, index + 1) && MediumAt(v, used, meta, next, index, chunk)
  {
  }

  // ----- where a freed chunk goes -----

  /** A freed chunk of some order became part of a free chunk p of order k, which is in front of its list; from each
      list between one chunk was taken to be merged, and all other lists are as they were. */
  ghost predicate MergedInto(lists: seq<seq<int>>, lists': seq<seq<int>>, index: nat, k: nat, p: int) {
    && index <= k < |lists| == |lists'| && lists'[k] == [p] + lists[k]
    && (forall i :: index <= i < k ==> OneTaken(lists[i], lists'[i]))
    && forall i :: 0 <= i < |lists| && (i < index || i > k) ==> lists'[i] == lists[i]
  }

  ghost predicate OneTaken(l: seq<int>, l': seq<int>) { exists b :: b in l && l' == Remove(l, b) }

  /** The chunk self of an order is within the merged one. */
  ghost predicate PutBack(lists: seq<seq<int>>, lists': seq<seq<int>>, index: nat, self: int) {
    exists k: nat, p :: MergedInto(lists, lists', index, k, p) && p <= self && self + Exp2(index) <= p + Exp2(k)
  }

  /** A hole is aligned to its order, and no list holds a chunk twice. */
  lemma HoleFacts(v: View, self: int, index: nat)
    requires Sound(v, 0) && index < TZL_SIZE && self in v.ps && v.ps[self] == Hole(index)
    ensures Aligned(self, index) && self >= 0 && |v.lists| == TZL_SIZE && NoDups(v.lists[index])
  {
    assert InBlock(v.ps, v.bs, self);
  }

  lemma PutAlone(lists: seq<seq<int>>, index: nat, self: int)
    requires index < |lists|
    ensures PutBack(lists, lists[index := [self] + lists[index]], index, self)
  {
    assert MergedInto(lists, lists[index := [self] + lists[index]], index, index, self);
  }

  /** A list without its j-th chunk. */
  lemma TakenAt(l: seq<int>, j: nat)
    requires NoDups(l) && j < |l|
    ensures OneTaken(l, l[..j] + l[j + 1..])
  {
    var k := RemoveCutsOnePosition(l, l[j]);
    assert k == j && l[j] in l;
  }

  lemma PutMerged(lists: seq<seq<int>>, mid: seq<seq<int>>, lists': seq<seq<int>>, index: nat, self: int, buddy: int)
    requires index < |lists| == |mid| && mid == lists[index := mid[index]] && OneTaken(lists[index], mid[index])
    requires PutBack(mid, lists', index + 1, Parent(self, buddy)) && Aligned(self, index) && self >= 0
    requires buddy == Buddy(self, index)
    ensures PutBack(lists, lists', index, self)
  {
    BuddyFacts(self, index);
    var k: nat, p :| MergedInto(mid, lists', index + 1, k, p) && p <= Parent(self, buddy)
                     && Parent(self, buddy) + Exp2(index + 1) <= p + Exp2(k);
    assert MergedInto(lists, lists', index, k, p);
  }
}
