/** The page allocator of the kernel heap: a first-fit scan over a bitmap kept in the heap's own first pages. */
module Pages {

  const PAGE_SIZE := 4096

  function PageCountPadded(size: nat): (c: nat)
    requires size > 0
    ensures c > 0 && (c - 1) * PAGE_SIZE < size <= c * PAGE_SIZE
  {
    (size - 1) / PAGE_SIZE + 1
  }

  /** 1 << k on a byte. */
  function Mask(k: nat): bv8
    requires k < 8
  {
    if k == 0 then 1 else if k == 1 then 2 else if k == 2 then 4 else if k == 3 then 8
    else if k == 4 then 16 else if k == 5 then 32 else if k == 6 then 64 else 128
  }

  lemma MaskBits(x: bv8, a: nat, b: nat)
    requires a < 8 && b < 8
    ensures (x | Mask(a)) & Mask(b) == if a == b then Mask(b) else x & Mask(b)
    ensures (x & !Mask(a)) & Mask(b) == if a == b then 0 else x & Mask(b)
    ensures Mask(a) != 0
  {
  }

  /** One byte of the bitmap with one bit set or cleared. */
  function SetBit(x: bv8, bit: nat, b: bool): bv8
    requires bit < 8
  {
    if b then x | Mask(bit) else x & !Mask(bit)
  }

  predicate HasBit(x: bv8, bit: nat)
    requires bit < 8
  {
    x & Mask(bit) != 0
  }

  lemma SetBitOnly(x: bv8, bit: nat, b: bool)
    requires bit < 8
    ensures forall k :: 0 <= k < 8 ==> HasBit(SetBit(x, bit, b), k) == if k == bit then b else HasBit(x, k)
  {
    forall k | 0 <= k < 8
      ensures HasBit(SetBit(x, bit, b), k) == if k == bit then b else HasBit(x, k)
    {
      MaskBits(x, bit, k);
    }
  }

  /** The scan's cursor: a byte of the bitmap and a mask in it. */
  datatype Cursor = Cursor(slot: nat, mask: bv8)

  function CursorAt(i: nat): Cursor { Cursor(i / 8, Mask(i % 8)) }

  function Advance(c: Cursor): Cursor {
    if c.mask == 0x80 then Cursor(c.slot + 1, 1) else c.(mask := c.mask << 1)
  }

  lemma CursorStep(i: nat)
    ensures Advance(CursorAt(i)) == CursorAt(i + 1)
  {
    var k := i % 8;
    assert i == 8 * (i / 8) + k;
    assert k < 7 ==> (i + 1) / 8 == i / 8 && (i + 1) % 8 == k + 1;
    assert k == 7 ==> (i + 1) / 8 == i / 8 + 1 && (i + 1) % 8 == 0;
  }

  // ----- what the bitmap means: one flag a page -----

  ghost predicate FreeRun(used: seq<bool>, i: nat, count: nat) {
    i + count <= |used| && forall j :: i <= j < i + count ==> !used[j]
  }

  function SetRun(used: seq<bool>, i: nat, count: nat, b: bool): (r: seq<bool>)
    requires i + count <= |used|
    ensures |r| == |used|
  {
    used[..i] + seq(count, k => b) + used[i + count..]
  }

  lemma SetRunStep(used: seq<bool>, i: nat, k: nat, b: bool)
    requires i + k < |used|
    ensures SetRun(used, i, k, b)[i + k := b] == SetRun(used, i, k + 1, b)
  {
  }

  /** Freeing a run that was free before it was allocated gives the old bitmap back. */
  lemma FreeUndoesAlloc(used: seq<bool>, i: nat, count: nat)
    requires FreeRun(used, i, count)
    ensures SetRun(SetRun(used, i, count, true), i, count, false) == used
  {
  }

  /** What the scan knows at page `at`: the free run it is in, and that no earlier run was long enough. */
  ghost predicate Scanned(used: seq<bool>, first: nat, count: nat, at: nat, run: nat) {
    && first <= at <= |used| && run < count && run <= at - first
    && FreeRun(used, at - run, run)
    && (at - run == first || used[at - run - 1])
    && (forall j: nat :: first <= j && j + count <= at ==> !FreeRun(used, j, count))
  }

  lemma ScanFree(used: seq<bool>, first: nat, count: nat, at: nat, run: nat)
    requires Scanned(used, first, count, at, run) && at < |used| && !used[at]
    ensures run + 1 < count ==> Scanned(used, first, count, at + 1, run + 1)
    ensures run + 1 == count ==> FreeRun(used, at - run, count)
    ensures run + 1 == count ==> forall j: nat :: first <= j < at - run ==> !FreeRun(used, j, count)
  {
    forall j: nat | first <= j < at - run
      ensures !FreeRun(used, j, count) || j + count <= at - run - 1
    {
      if j + count > at - run - 1 {
        assert used[at - run - 1];
      }
    }
    if run + 1 < count {
      forall j: nat | first <= j && j + count <= at + 1
        ensures !FreeRun(used, j, count)
      {
        assert j < at - run;
      }
    }
  }

  lemma ScanUsed(used: seq<bool>, first: nat, count: nat, at: nat, run: nat)
    requires Scanned(used, first, count, at, run) && at < |used| && used[at]
    ensures Scanned(used, first, count, at + 1, 0)
  {
  }

  class PageAllocator {
    const memHeap: int
    const pageCount: nat
    const metaPages: nat
    const bitmap: array<bv8>

    ghost predicate Valid()
      reads this
    {
      && 0 < metaPages <= pageCount && pageCount <= metaPages * PAGE_SIZE
      && bitmap.Length == metaPages * PAGE_SIZE && 0 < memHeap
    }

    predicate Bit(i: nat)
      requires i / 8 < bitmap.Length
      reads this, bitmap
    {
      HasBit(bitmap[i / 8], i % 8)
    }

    /** The flags of all pages. */
    ghost function Used(): (u: seq<bool>)
      requires Valid()
      reads this, bitmap
      ensures |u| == pageCount && forall i :: 0 <= i < pageCount ==> u[i] == Bit(i)
    {
      seq(pageCount, i requires 0 <= i < pageCount && Valid() reads this, bitmap => Bit(i))
    }

    /** page_init: the pages that hold the bitmap are in use for ever, all others are free. */
    constructor (memHeap: int, heapSize: nat)
      requires 0 < memHeap && heapSize >= PAGE_SIZE
      ensures Valid() && fresh(bitmap) && this.memHeap == memHeap && pageCount == heapSize / PAGE_SIZE
      ensures metaPages == PageCountPadded(pageCount)
      ensures forall i :: 0 <= i < pageCount ==> Used()[i] == (i < metaPages)
    {
      this.memHeap := memHeap;
      pageCount := heapSize / PAGE_SIZE;
      metaPages := PageCountPadded(heapSize / PAGE_SIZE);
      var map_ := new bv8[PageCountPadded(heapSize / PAGE_SIZE) * PAGE_SIZE](_ => 0);
      bitmap := map_;
      new;
      assert forall k :: 0 <= k < bitmap.Length ==> bitmap[k] == 0;
      forall i | 0 <= i < pageCount
        ensures !Used()[i]
      {
        assert bitmap[i / 8] == 0;
      }
      var i := 0;
      while i < metaPages
        invariant 0 <= i <= metaPages && Valid()
        invariant forall j :: 0 <= j < pageCount ==> Used()[j] == (j < i)
      {
        SetAllocated(i, true);
        i := i + 1;
      }
    }

    method SetAllocated(num: nat, inUse: bool)
      requires Valid() && num < pageCount
      modifies bitmap
      ensures Used() == old(Used())[num := inUse]
    {
      var index := num / 8;
      var bit := num % 8;
      SetBitOnly(bitmap[index], bit, inUse);
      bitmap[index] := SetBit(bitmap[index], bit, inUse);
      forall i | 0 <= i < pageCount
        ensures Bit(i) == if i == num then inUse else old(Bit(i))
      {
        assert i / 8 == index && i % 8 == bit ==> i == num;
      }
    }

    method SetRunTo(first: nat, count: nat, inUse: bool)
      requires Valid() && first + count <= pageCount
      modifies bitmap
      ensures Used() == SetRun(old(Used()), first, count, inUse)
    {
      var k := 0;
      ghost var was := Used();
      assert SetRun(was, first, 0, inUse) == was;
      while k < count
        invariant 0 <= k <= count
        invariant Used() == SetRun(was, first, k, inUse)
      {
        SetRunStep(was, first, k, inUse);
        SetAllocated(first + k, inUse);
        k := k + 1;
      }
    }

    /** page_alloc: the lowest run of enough free pages behind the bitmap's own, or NULL when there is none. */
    method Alloc(size: nat) returns (ptr: int)
      requires Valid() && size > 0
      modifies bitmap
      ensures ptr == 0 ==> Used() == old(Used())
      ensures ptr == 0 <==> forall j: nat :: j >= metaPages ==> !FreeRun(old(Used()), j, PageCountPadded(size))
      ensures ptr != 0 ==>
        && ptr >= memHeap && (ptr - memHeap) % PAGE_SIZE == 0
        && var i: nat, count := (ptr - memHeap) / PAGE_SIZE, PageCountPadded(size);
           && i >= metaPages && FreeRun(old(Used()), i, count) && Used() == SetRun(old(Used()), i, count, true)
           && (forall j: nat :: metaPages <= j < i ==> !FreeRun(old(Used()), j, count))
    {
      var count := PageCountPadded(size);
      var found, i := FirstFit(count);
      if !found {
        return 0;
      }
      ptr := memHeap + i * PAGE_SIZE;
      SetRunTo(i, count, true);
    }

    /** The scan itself, with its byte and bit cursors. */
    method FirstFit(count: nat) returns (found: bool, allocIndex: nat)
      requires Valid() && count > 0
      ensures found ==> allocIndex >= metaPages && FreeRun(Used(), allocIndex, count)
      ensures found ==> forall j: nat :: metaPages <= j < allocIndex ==> !FreeRun(Used(), j, count)
      ensures !found ==> forall j: nat :: j >= metaPages ==> !FreeRun(Used(), j, count)
    {
      var cursor := CursorAt(metaPages);
      var pageIndex := metaPages;
      allocIndex := 0;
      var allocCounter := 0;
      while pageIndex < pageCount
        invariant Scanned(Used(), metaPages, count, pageIndex, allocCounter)
        invariant cursor == CursorAt(pageIndex)
        invariant allocCounter > 0 ==> allocIndex + allocCounter == pageIndex
      {
        CursorStep(pageIndex);
        assert Used()[pageIndex] == Bit(pageIndex);
        if bitmap[cursor.slot] & cursor.mask == 0 {
          ScanFree(Used(), metaPages, count, pageIndex, allocCounter);
          if allocCounter == 0 {
            allocIndex := pageIndex;
          }
          allocCounter := allocCounter + 1;
          if allocCounter == count {
            return true, allocIndex;
          }
        } else {
          ScanUsed(Used(), metaPages, count, pageIndex, allocCounter);
          allocCounter := 0;
        }
        cursor := Advance(cursor);
        pageIndex := pageIndex + 1;
      }
      found := false;
    }

    method Free(ptr: int, size: nat)
      requires Valid() && size > 0 && ptr >= memHeap
      requires (ptr - memHeap) / PAGE_SIZE + PageCountPadded(size) <= pageCount
      modifies bitmap
      ensures Used() == SetRun(old(Used()), (ptr - memHeap) / PAGE_SIZE, PageCountPadded(size), false)
    {
      SetRunTo((ptr - memHeap) / PAGE_SIZE, PageCountPadded(size), false);
    }
  }

  /** A freed allocation leaves no trace in the bitmap. */
  method AllocThenFree(a: PageAllocator, size: nat) returns (got: bool)
    requires a.Valid() && size > 0
    modifies a.bitmap
    ensures a.Used() == old(a.Used())
  {
    var ptr := a.Alloc(size);
    got := ptr != 0;
    if got {
      FreeUndoesAlloc(old(a.Used()), (ptr - a.memHeap) / PAGE_SIZE, PageCountPadded(size));
      a.Free(ptr, size);
    }
  }
}
