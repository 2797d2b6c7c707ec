/**
 An allocator with a memory budget: what does not fit goes to pages backed by files.

 Addresses are numbers. Where memory and new pages end up is chosen by the system, and is an
 argument of each operation.
 */
module SwapAllocator {
  import opened PipeLog

  const DEFAULT_PAGE_SIZE: nat := 0x400_0000

  /** `tail` is where free bytes start, `refs` the number of active pointers. */
  datatype Page = Page(seqno: nat, base: nat, size: nat, tail: nat, refs: nat) {
    predicate Contains(ptr: nat) { base <= ptr < base + size }
  }

  /** A live allocation; `page` is the page it is in, if it is swapped. */
  datatype Block = Block(ptr: nat, size: nat, page: Option<nat>)

  function AlignOffset(addr: nat, align: nat): nat
    requires align > 0
  {
    (align - addr % align) % align
  }

  lemma MulAtLeast(d: int, n: nat)
    requires d >= 1
    ensures d * n >= n
  {
    assert d * n == (d - 1) * n + n;
  }

  /** A number with a quotient and a remainder has that remainder. */
  lemma ModUnique(a: nat, q: nat, r: nat, n: nat)
    requires n > 0 && a == q * n + r && r < n
    ensures a % n == r
  {
    var q', r' := a / n, a % n;
    assert a == q' * n + r';
    assert (q - q') * n == r' - r;
    if q > q' {
      MulAtLeast(q - q', n);
    } else if q < q' {
      assert (q' - q) * n == r - r';
      MulAtLeast(q' - q, n);
    }
  }

  /** The offset leads to the next multiple of `align`, and not past it. */
  lemma AlignOffsetAligns(addr: nat, align: nat)
    requires align > 0
    ensures (addr + AlignOffset(addr, align)) % align == 0 && AlignOffset(addr, align) < align
  {
    var rem, q := addr % align, addr / align;
    assert addr == q * align + rem;
    if rem == 0 {
      ModUnique(align, 1, 0, align);
    } else {
      ModUnique(align - rem, 0, align - rem, align);
      assert (q + 1) * align == q * align + align;
      ModUnique(addr + (align - rem), q + 1, 0, align);
    }
  }

  // ----------------------------------------------------------------------- counting

  /** Total size of the live blocks in memory. */
  function MemTotal(live: seq<Block>): nat {
    if live == [] then 0 else
    MemTotal(live[..|live| - 1]) + if live[|live| - 1].page.None? then live[|live| - 1].size else 0
  }

  /** Number of live blocks in the page. */
  function RefCount(live: seq<Block>, seqno: nat): nat {
    if live == [] then 0 else
    RefCount(live[..|live| - 1], seqno) + if live[|live| - 1].page == Some(seqno) then 1 else 0
  }

  function Without(live: seq<Block>, k: nat): (r: seq<Block>)
    requires k < |live|
    ensures |r| == |live| - 1
  {
    live[..k] + live[k + 1..]
  }

  lemma {:induction false} WithoutCounts(live: seq<Block>, k: nat, seqno: nat)
    requires k < |live|
    ensures MemTotal(Without(live, k)) == MemTotal(live) - if live[k].page.None? then live[k].size else 0
    ensures RefCount(Without(live, k), seqno) == RefCount(live, seqno) - if live[k].page == Some(seqno) then 1 else 0
    decreases |live|
  {
    var n, rest := |live| - 1, Without(live, k);
    if k == n {
      assert rest == live[..n];
    } else {
      assert rest[..|rest| - 1] == Without(live[..n], k);
      WithoutCounts(live[..n], k, seqno);
    }
  }

  lemma SnocCounts(live: seq<Block>, b: Block, seqno: nat)
    ensures MemTotal(live + [b]) == MemTotal(live) + if b.page.None? then b.size else 0
    ensures RefCount(live + [b], seqno) == RefCount(live, seqno) + if b.page == Some(seqno) then 1 else 0
  {
    assert (live + [b])[..|live|] == live;
  }

  lemma {:induction false} RefCountZero(live: seq<Block>, seqno: nat)
    ensures RefCount(live, seqno) == 0 <==> forall k :: 0 <= k < |live| ==> live[k].page != Some(seqno)
    decreases |live|
  {
    if live != [] { RefCountZero(live[..|live| - 1], seqno); }
  }

  // --------------------------------------------------------------------- invariants

  /** Byte ranges that share no byte. */
  predicate Apart(ptr: nat, size: nat, ptr': nat, size': nat) {
    size == 0 || size' == 0 || ptr + size <= ptr' || ptr' + size' <= ptr
  }

  /** Pages have different numbers and different addresses. */
  ghost predicate PagesOk(pages: seq<Page>, nextSeq: nat) {
    && (forall i :: 0 <= i < |pages| ==> pages[i].tail <= pages[i].size && pages[i].seqno < nextSeq)
    && (forall i, j :: 0 <= i < j < |pages| ==>
          pages[i].seqno != pages[j].seqno && Apart(pages[i].base, pages[i].size, pages[j].base, pages[j].size))
  }

  /** A swapped block lies in the used part of its page; the pointer of a block in memory is in
      no page. */
  ghost predicate Placed(b: Block, pages: seq<Page>) {
    match b.page
    case None => forall i :: 0 <= i < |pages| ==>
      !pages[i].Contains(b.ptr) && Apart(b.ptr, b.size, pages[i].base, pages[i].size)
    case Some(seqno) => exists i :: 0 <= i < |pages| && pages[i].seqno == seqno
                                    && pages[i].base <= b.ptr < pages[i].base + pages[i].size
                                    && b.ptr + b.size <= pages[i].base + pages[i].tail
  }

  ghost predicate AllPlaced(live: seq<Block>, pages: seq<Page>) {
    forall k :: 0 <= k < |live| ==> Placed(live[k], pages)
  }

  /** No two live blocks overlap. */
  ghost predicate NoOverlap(live: seq<Block>) {
    forall j, k :: 0 <= j < k < |live| ==> Apart(live[j].ptr, live[j].size, live[k].ptr, live[k].size)
  }

  /** Each page counts its live blocks. */
  ghost predicate Counted(live: seq<Block>, pages: seq<Page>) {
    forall i :: 0 <= i < |pages| ==> pages[i].refs == RefCount(live, pages[i].seqno)
  }

  /** A pointer that the memory allocator may return: apart from all live blocks and pages. */
  ghost predicate FreshMemory(ptr: nat, size: nat, live: seq<Block>, pages: seq<Page>) {
    && Placed(Block(ptr, size, None), pages)
    && forall k :: 0 <= k < |live| ==> Apart(ptr, size, live[k].ptr, live[k].size)
  }

  /** An address where a new page may be mapped. */
  ghost predicate FreshPage(base: nat, size: nat, live: seq<Block>, pages: seq<Page>) {
    && (forall i :: 0 <= i < |pages| ==> Apart(base, size, pages[i].base, pages[i].size))
    && forall k :: 0 <= k < |live| ==>
         Apart(base, size, live[k].ptr, live[k].size) && !(base <= live[k].ptr < base + size)
  }

  ghost predicate Inv(live: seq<Block>, pages: seq<Page>, nextSeq: nat) {
    && Counted(live, pages) && PagesOk(pages, nextSeq) && AllPlaced(live, pages) && NoOverlap(live)
    && forall k :: 0 <= k < |live| && live[k].page.Some? ==> live[k].page.value < nextSeq
  }

  lemma AddMemory(live: seq<Block>, pages: seq<Page>, nextSeq: nat, ptr: nat, size: nat)
    requires Inv(live, pages, nextSeq) && FreshMemory(ptr, size, live, pages)
    ensures Inv(live + [Block(ptr, size, None)], pages, nextSeq)
  {
    var b := Block(ptr, size, None);
    forall i | 0 <= i < |pages| ensures RefCount(live + [b], pages[i].seqno) == pages[i].refs {
      SnocCounts(live, b, pages[i].seqno);
    }
  }

  lemma AddPage(live: seq<Block>, pages: seq<Page>, nextSeq: nat, base: nat, size: nat)
    requires Inv(live, pages, nextSeq) && FreshPage(base, size, live, pages)
    ensures Inv(live, pages + [Page(nextSeq, base, size, 0, 0)], nextSeq + 1)
  {
    hide RefCount;
    var all := pages + [Page(nextSeq, base, size, 0, 0)];
    RefCountZero(live, nextSeq);
    forall k | 0 <= k < |live| ensures Placed(live[k], all) {
      if live[k].page.Some? {
        var i :| 0 <= i < |pages| && pages[i].seqno == live[k].page.value
                 && pages[i].base <= live[k].ptr < pages[i].base + pages[i].size
                 && live[k].ptr + live[k].size <= pages[i].base + pages[i].tail;
        assert all[i] == pages[i];
      }
    }
  }

  /** Where a page places a block, if it fits. */
  function Offset(p: Page, align: nat): nat
    requires align > 0
  {
    p.tail + AlignOffset(p.base + p.tail, align)
  }

  lemma OffsetAligns(p: Page, align: nat)
    requires align > 0
    ensures (p.base + Offset(p, align)) % align == 0 && p.tail <= Offset(p, align) < p.tail + align
  {
    AlignOffsetAligns(p.base + p.tail, align);
    assert p.base + Offset(p, align) == p.base + p.tail + AlignOffset(p.base + p.tail, align);
  }

  /** A block of this size and alignment fits behind the used part of the last page. */
  predicate FitsLast(pages: seq<Page>, size: nat, align: nat)
    requires align > 0
  {
    |pages| > 0 && Offset(pages[|pages| - 1], align) + size <= pages[|pages| - 1].size
  }

  function Used(p: Page, offset: nat, size: nat): Page { p.(tail := offset + size, refs := p.refs + 1) }

  lemma UsedPlaced(live: seq<Block>, pages: seq<Page>, n: nat, page: Page, k: nat)
    requires n < |pages| && AllPlaced(live, pages) && k < |live|
    requires page.seqno == pages[n].seqno && page.base == pages[n].base && page.size == pages[n].size && pages[n].tail <= page.tail
    ensures Placed(live[k], pages[n := page])
  {
    var all := pages[n := page];
    if live[k].page.Some? {
      var i :| 0 <= i < |pages| && pages[i].seqno == live[k].page.value
               && pages[i].base <= live[k].ptr < pages[i].base + pages[i].size
               && live[k].ptr + live[k].size <= pages[i].base + pages[i].tail;
      assert all[i].seqno == live[k].page.value;
    }
  }

  /** A block in the free part of a page overlaps no live block. */
  lemma FreePartIsFree(live: seq<Block>, pages: seq<Page>, nextSeq: nat, n: nat, offset: nat, size: nat, k: nat)
    requires Inv(live, pages, nextSeq) && n < |pages| && k < |live|
    requires pages[n].tail <= offset && offset + size <= pages[n].size
    ensures Apart(live[k].ptr, live[k].size, pages[n].base + offset, size)
  {
    assert Placed(live[k], pages);
    if live[k].page.Some? {
      var i :| 0 <= i < |pages| && pages[i].seqno == live[k].page.value
               && pages[i].base <= live[k].ptr < pages[i].base + pages[i].size
               && live[k].ptr + live[k].size <= pages[i].base + pages[i].tail;
      if i < n {
        assert Apart(pages[i].base, pages[i].size, pages[n].base, pages[n].size);
      } else if n < i {
        assert Apart(pages[n].base, pages[n].size, pages[i].base, pages[i].size);
      }
    }
  }

  lemma AddSwapped(live: seq<Block>, pages: seq<Page>, nextSeq: nat, n: nat, offset: nat, size: nat)
    requires Inv(live, pages, nextSeq) && n < |pages| && size > 0
    requires pages[n].tail <= offset && offset + size <= pages[n].size
    ensures Inv(live + [Block(pages[n].base + offset, size, Some(pages[n].seqno))],
                pages[n := Used(pages[n], offset, size)], nextSeq)
  {
    hide RefCount;
    var b, all := Block(pages[n].base + offset, size, Some(pages[n].seqno)), pages[n := Used(pages[n], offset, size)];
    var after := live + [b];
    assert Counted(after, all) by {
      forall i | 0 <= i < |all| ensures all[i].refs == RefCount(after, all[i].seqno) {
        SnocCounts(live, b, all[i].seqno);
        assert i != n ==> pages[i].seqno != pages[n].seqno;
      }
    }
    assert AllPlaced(after, all) by {
      forall k | 0 <= k < |live| ensures Placed(live[k], all) { UsedPlaced(live, pages, n, all[n], k); }
      assert all[n].seqno == pages[n].seqno;
    }
    assert NoOverlap(after) by {
      forall k | 0 <= k < |live| ensures Apart(live[k].ptr, live[k].size, b.ptr, b.size) {
        FreePartIsFree(live, pages, nextSeq, n, offset, size, k);
      }
    }
  }

  lemma WithoutAt(live: seq<Block>, k: nat, j: nat)
    requires k < |live| && j < |live| - 1
    ensures Without(live, k)[j] == live[if j < k then j else j + 1]
  {
  }

  lemma RemoveKeepsApart(live: seq<Block>, k: nat)
    requires k < |live| && NoOverlap(live)
    ensures NoOverlap(Without(live, k))
  {
    var rest := Without(live, k);
    forall i, j | 0 <= i < j < |rest| ensures Apart(rest[i].ptr, rest[i].size, rest[j].ptr, rest[j].size) {
      WithoutAt(live, k, i);
      WithoutAt(live, k, j);
    }
  }

  lemma RemoveMemory(live: seq<Block>, pages: seq<Page>, nextSeq: nat, k: nat)
    requires Inv(live, pages, nextSeq) && k < |live| && live[k].page.None?
    ensures Inv(Without(live, k), pages, nextSeq)
  {
    var rest := Without(live, k);
    RemoveKeepsApart(live, k);
    forall i | 0 <= i < |pages| ensures pages[i].refs == RefCount(rest, pages[i].seqno) {
      WithoutCounts(live, k, pages[i].seqno);
    }
    forall j | 0 <= j < |rest| ensures Placed(rest[j], pages) && (rest[j].page.Some? ==> rest[j].page.value < nextSeq) {
      WithoutAt(live, k, j);
    }
  }

  /** A block leaves its page, which stays. */
  lemma RemoveSwapped(live: seq<Block>, pages: seq<Page>, nextSeq: nat, k: nat, n: nat)
    requires Inv(live, pages, nextSeq) && k < |live| && n < |pages| && live[k].page == Some(pages[n].seqno)
    ensures pages[n].refs == RefCount(Without(live, k), pages[n].seqno) + 1
    ensures Inv(Without(live, k), pages[n := pages[n].(refs := pages[n].refs - 1)], nextSeq)
  {
    var rest := Without(live, k);
    WithoutCounts(live, k, pages[n].seqno);
    var all := pages[n := pages[n].(refs := pages[n].refs - 1)];
    RemoveKeepsApart(live, k);
    assert Counted(rest, all) by {
      forall i | 0 <= i < |all| ensures all[i].refs == RefCount(rest, all[i].seqno) {
        WithoutCounts(live, k, all[i].seqno);
        assert i != n ==> pages[i].seqno != pages[n].seqno;
      }
    }
    forall j | 0 <= j < |rest| ensures Placed(rest[j], all) && (rest[j].page.Some? ==> rest[j].page.value < nextSeq) {
      WithoutAt(live, k, j);
      UsedPlaced(live, pages, n, all[n], if j < k then j else j + 1);
    }
  }

  function WithoutPage(pages: seq<Page>, n: nat): seq<Page>
    requires n < |pages|
  {
    pages[..n] + pages[n + 1..]
  }

  /** A page without live blocks can go. */
  lemma ReleasePage(live: seq<Block>, pages: seq<Page>, nextSeq: nat, n: nat)
    requires Inv(live, pages, nextSeq) && n < |pages| && pages[n].refs == 0
    ensures Inv(live, WithoutPage(pages, n), nextSeq)
  {
    hide Apart;
    var rest := WithoutPage(pages, n);
    assert forall i :: 0 <= i < |rest| ==> rest[i] == pages[if i < n then i else i + 1];
    RefCountZero(live, pages[n].seqno);
    forall k | 0 <= k < |live| ensures Placed(live[k], rest) {
      if live[k].page.Some? {
        var i :| 0 <= i < |pages| && pages[i].seqno == live[k].page.value
                 && pages[i].base <= live[k].ptr < pages[i].base + pages[i].size
                 && live[k].ptr + live[k].size <= pages[i].base + pages[i].tail;
        assert i != n;
        assert rest[if i < n then i else i - 1] == pages[i];
      }
    }
  }

  class SwappyAllocator {
    const budget: nat
    var memUsage: nat
    var maybeSwapped: bool
    var pageSeq: nat
    var pages: seq<Page>
    ghost var live: seq<Block>

    /** Usage is the total size of the blocks in memory; pages count their blocks; nothing
        overlaps. */
    ghost predicate Valid()
      reads this
    {
      memUsage == MemTotal(live) && Inv(live, pages, pageSeq) && (!maybeSwapped ==> pages == [])
    }

    constructor (budget: nat)
      ensures Valid() && live == [] && this.budget == budget && memUsage == 0
    {
      this.budget := budget;
      memUsage, maybeSwapped, pageSeq, pages, live := 0, false, 0, [], [];
    }

    /** Places a block in the last page, or in a new one. */
    method AllocateSwapped(size: nat, align: nat, newPage: Option<nat>) returns (r: Option<nat>)
      requires Inv(live, pages, pageSeq) && (!maybeSwapped ==> pages == []) && size > 0 && align > 0
      requires newPage.Some? ==> FreshPage(newPage.value, PageSize(size), live, pages)
      modifies this`maybeSwapped, this`pageSeq, this`pages, this`live
      ensures Inv(live, pages, pageSeq) && (!maybeSwapped ==> pages == [])
      ensures r.Some? ==> Added(old(live), live, r.value, size) && live[|live| - 1].page.Some? && r.value % align == 0
      ensures r.Some? ==> |pages| == |old(pages)| + if FitsLast(old(pages), size, align) then 0 else 1
      ensures r.Some? ==> live[|live| - 1].page == Some(pages[|pages| - 1].seqno)
      ensures r.None? ==> live == old(live)
      ensures r.None? ==>
                || pages == old(pages)
                || (newPage.Some? && pages == old(pages) + [Page(old(pageSeq), newPage.value, PageSize(size), 0, 0)])
      ensures newPage.Some? && newPage.value % align == 0 ==> r.Some?
    {
      hide Inv;
      if |pages| > 0 {
        r := AllocateInLast(size, align);
        if r.Some? { return; }
      }
      maybeSwapped := true;
      var seqno := pageSeq;
      pageSeq := pageSeq + 1;
      if newPage.None? {
        NextSeqGrows(live, pages, seqno);
        return None;
      }
      AddPage(live, pages, seqno, newPage.value, PageSize(size));
      pages := pages + [Page(seqno, newPage.value, PageSize(size), 0, 0)];
      r := AllocateInLast(size, align);
    }

    /** Places a block behind the used part of the last page, if it fits there. */
    method AllocateInLast(size: nat, align: nat) returns (r: Option<nat>)
      requires Inv(live, pages, pageSeq) && |pages| > 0 && size > 0 && align > 0
      modifies this`pages, this`live
      ensures Inv(live, pages, pageSeq) && |pages| == |old(pages)|
      ensures r.Some? <==> FitsLast(old(pages), size, align)
      ensures r.Some? ==> Added(old(live), live, r.value, size) && r.value % align == 0
      ensures r.Some? ==> live[|live| - 1].page == Some(pages[|pages| - 1].seqno)
      ensures r.Some? ==> var p := old(pages)[|old(pages)| - 1]; p.base + p.tail <= r.value < p.base + p.tail + align
      ensures r.None? ==> live == old(live) && pages == old(pages)
    {
      hide Inv, Offset;
      var n := |pages| - 1;
      var p := pages[n];
      var offset := Offset(p, align);
      if offset + size > p.size { return None; }
      OffsetAligns(p, align);
      AddSwapped(live, pages, pageSeq, n, offset, size);
      live := live + [Block(p.base + offset, size, Some(p.seqno))];
      pages := pages[n := Used(p, offset, size)];
      return Some(p.base + offset);
    }

    /** Allocates in memory while the budget allows it, and in a page otherwise; in memory again
        when no page can be had. `memory` is what the memory allocator would return. */
    method Allocate(size: nat, align: nat, memory: Option<nat>, newPage: Option<nat>) returns (r: Option<nat>)
      requires Valid() && align > 0
      requires newPage.Some? ==> FreshPage(newPage.value, PageSize(size), live, pages)
      requires memory.Some? ==> FreshMemory(memory.value, size, live, pages)
      requires memory.Some? && newPage.Some? ==>
                 Apart(memory.value, size, newPage.value, PageSize(size))
                 && !(newPage.value <= memory.value < newPage.value + PageSize(size))
      modifies this
      ensures Valid()
      ensures r.Some? ==> Added(old(live), live, r.value, size)
      ensures r.None? ==> live == old(live) && memUsage == old(memUsage)
      ensures r.None? ==> memory.None?
      ensures newPage.Some? && newPage.value % align == 0 && old(memUsage) <= budget ==> memUsage <= budget
      ensures r.Some? && old(memUsage) + size <= budget ==> r == memory && live[|live| - 1].page.None?
      ensures r.Some? && size > 0 && old(memUsage) + size > budget && newPage.Some? && newPage.value % align == 0 ==>
                live[|live| - 1].page.Some?
      ensures r.Some? && live[|live| - 1].page.Some? ==> r.value % align == 0
    {
      hide Inv, MemTotal, FitsLast, FreshPage, FreshMemory;
      if size > 0 {
        memUsage := memUsage + size;
        if memUsage > budget {
          r := AllocateSwapped(size, align, newPage);
          if r.Some? {
            assert live == old(live) + [live[|live| - 1]];
            SnocCounts(old(live), live[|live| - 1], 0);
            memUsage := memUsage - size;
            return;
          }
        }
      }
      if memory.None? {
        memUsage := memUsage - size;
        return None;
      }
      FreshBehind(memory.value, size, live, old(pages), pages, newPage, old(pageSeq));
      AddMemory(live, pages, pageSeq, memory.value, size);
      SnocCounts(live, Block(memory.value, size, None), 0);
      live := live + [Block(memory.value, size, None)];
      return memory;
    }

    /** Makes block `k` larger: in memory while the budget allows it and nothing was swapped,
        and by a new allocation otherwise. */
    method Grow(ptr: nat, oldSize: nat, newSize: nat, align: nat, ghost k: nat,
                grown: Option<nat>, memory: Option<nat>, newPage: Option<nat>) returns (r: Option<nat>)
      requires Valid() && k < |live| && live[k].ptr == ptr && live[k].size == oldSize <= newSize && align > 0
      requires grown.Some? ==> FreshMemory(grown.value, newSize, Without(live, k), pages)
      requires newPage.Some? ==> FreshPage(newPage.value, PageSize(newSize), live, pages)
      requires memory.Some? ==> FreshMemory(memory.value, newSize, live, pages)
      requires memory.Some? && newPage.Some? ==>
                 Apart(memory.value, newSize, newPage.value, PageSize(newSize))
                 && !(newPage.value <= memory.value < newPage.value + PageSize(newSize))
      modifies this
      ensures Valid()
      ensures r.Some? ==> Replaced(old(live), live, k, r.value, newSize)
      ensures r.None? ==> live == old(live) && memUsage == old(memUsage)
      ensures newPage.Some? && newPage.value % align == 0 && old(memUsage) <= budget ==> memUsage <= budget
      ensures old(memUsage) + newSize - oldSize <= budget && !old(maybeSwapped) ==>
                r == grown && pages == old(pages) && (r.Some? ==> live[|live| - 1].page.None?)
    {
      hide Inv, MemTotal;
      var diff := newSize - oldSize;
      memUsage := memUsage + diff;
      if memUsage > budget || maybeSwapped {
        memUsage := memUsage - diff;
        r := Allocate(newSize, align, memory, newPage);
        if r.Some? {
          assert live == old(live) + [live[|live| - 1]] && live[k] == old(live)[k];
          WithoutThenAdd(old(live), live[|live| - 1], k);
          Deallocate(ptr, oldSize, k);
        }
      } else if grown.None? {
        memUsage := memUsage - diff;
        r := None;
      } else {
        InMemory(live, pages, pageSeq, k);
        Move(k, grown.value, newSize);
        r := grown;
      }
    }

    /** Block `k`, in memory, moves or changes its size. */
    ghost method Move(k: nat, ptr: nat, size: nat)
      requires Inv(live, pages, pageSeq) && k < |live| && live[k].page.None?
      requires FreshMemory(ptr, size, Without(live, k), pages)
      modifies this`live
      ensures Inv(live, pages, pageSeq) && Replaced(old(live), live, k, ptr, size) && live[|live| - 1].page.None?
      ensures MemTotal(live) == MemTotal(old(live)) - old(live)[k].size + size
    {
      hide Inv, MemTotal;
      RemoveMemory(live, pages, pageSeq, k);
      WithoutCounts(live, k, 0);
      AddMemory(Without(live, k), pages, pageSeq, ptr, size);
      SnocCounts(Without(live, k), Block(ptr, size, None), 0);
      live := Without(live, k) + [Block(ptr, size, None)];
    }

    /** Makes block `k` smaller. A swapped block goes back to memory if the budget allows it,
        and keeps its place otherwise. */
    method Shrink(ptr: nat, oldSize: nat, newSize: nat, align: nat, ghost k: nat,
                  shrunk: Option<nat>, memory: Option<nat>, newPage: Option<nat>) returns (r: Option<nat>)
      requires Valid() && k < |live| && live[k].ptr == ptr && newSize <= live[k].size == oldSize && align > 0
      requires shrunk.Some? ==> FreshMemory(shrunk.value, newSize, Without(live, k), pages)
      requires newPage.Some? ==> FreshPage(newPage.value, PageSize(newSize), live, pages)
      requires memory.Some? ==> FreshMemory(memory.value, newSize, live, pages)
      requires memory.Some? && newPage.Some? ==>
                 Apart(memory.value, newSize, newPage.value, PageSize(newSize))
                 && !(newPage.value <= memory.value < newPage.value + PageSize(newSize))
      modifies this
      ensures Valid()
      ensures r.Some? ==> Replaced(old(live), live, k, r.value, newSize)
      ensures r.None? ==> live == old(live) && memUsage == old(memUsage)
      ensures newPage.Some? && newPage.value % align == 0 && old(memUsage) <= budget ==> memUsage <= budget
      ensures r.Some? && (old(live)[k].page.None? || old(memUsage) + newSize <= budget) ==> live[|live| - 1].page.None?
      ensures old(live)[k].page.Some? && old(memUsage) + newSize > budget ==>
                r == Some(ptr) && pages == old(pages) && memUsage == old(memUsage) && live[|live| - 1].page == old(live)[k].page
    {
      hide Inv, MemTotal;
      var swapped := IsSwapped(ptr, k);
      if swapped {
        if memUsage + newSize <= budget {
          r := Allocate(newSize, align, memory, newPage);
          if r.Some? {
            assert live == old(live) + [live[|live| - 1]] && live[k] == old(live)[k];
            WithoutThenAdd(old(live), live[|live| - 1], k);
            Deallocate(ptr, oldSize, k);
          }
        } else {
          ShrinkInPlace(live, pages, pageSeq, k, newSize);
          live := Without(live, k) + [live[k].(size := newSize)];
          r := Some(ptr);
        }
      } else {
        r := shrunk;
        if r.Some? {
          WithoutCounts(live, k, 0);
          Move(k, r.value, newSize);
          memUsage := memUsage - (oldSize - newSize);
        }
      }
    }

    /** Whether the block is in a page, found by its pointer. */
    method IsSwapped(ptr: nat, ghost k: nat) returns (swapped: bool)
      requires Valid() && k < |live| && live[k].ptr == ptr
      ensures swapped <==> live[k].page.Some?
    {
      hide Inv, MemTotal;
      if !maybeSwapped {
        InMemory(live, pages, pageSeq, k);
        return false;
      }
      for i := 0 to |pages|
        invariant forall j :: 0 <= j < i ==> !pages[j].Contains(ptr)
      {
        if pages[i].Contains(ptr) {
          PageOf(live, pages, pageSeq, k, i);
          return true;
        }
      }
      InMemory(live, pages, pageSeq, k);
      return false;
    }

    /** Gives back block `k`. Its page, if it has one, is released exactly when no other live
        block is in it. */
    method Deallocate(ptr: nat, size: nat, ghost k: nat)
      requires Valid() && k < |live| && live[k].ptr == ptr && live[k].size == size
      modifies this
      ensures Valid() && live == Without(old(live), k) && memUsage <= old(memUsage)
      ensures old(live)[k].page.None? ==> pages == old(pages)
      ensures old(live)[k].page.Some? ==>
                exists n :: 0 <= n < |old(pages)| && old(live)[k].page == Some(old(pages)[n].seqno)
                            && pages == Left(old(pages), n, RefCount(live, old(pages)[n].seqno))
      ensures old(live)[k].page.Some? ==> (maybeSwapped <==> pages != [])
    {
      hide Inv, MemTotal;
      WithoutCounts(live, k, 0);
      if maybeSwapped {
        for i := 0 to |pages|
          invariant memUsage == old(memUsage) && pages == old(pages) && live == old(live) && pageSeq == old(pageSeq)
          invariant maybeSwapped && forall j :: 0 <= j < i ==> !pages[j].Contains(ptr)
        {
          if pages[i].Contains(ptr) {
            PageOf(live, pages, pageSeq, k, i);
            Leave(k, i);
            return;
          }
        }
      }
      InMemory(live, pages, pageSeq, k);
      RemoveMemory(live, pages, pageSeq, k);
      memUsage := memUsage - size;
      live := Without(live, k);
    }

    /** Takes block `k` out of its page `i`. */
    method Leave(ghost k: nat, i: nat)
      requires Valid() && maybeSwapped && k < |live| && i < |pages| && live[k].page == Some(pages[i].seqno)
      modifies this`pages, this`live, this`maybeSwapped
      ensures Valid() && live == Without(old(live), k)
      ensures pages == Left(old(pages), i, RefCount(live, old(pages)[i].seqno))
      ensures maybeSwapped <==> pages != []
    {
      hide Inv, MemTotal;
      WithoutCounts(live, k, 0);
      RemoveSwapped(live, pages, pageSeq, k, i);
      live := Without(live, k);
      pages := pages[i := pages[i].(refs := pages[i].refs - 1)];
      if pages[i].refs == 0 {
        ReleasePage(live, pages, pageSeq, i);
        pages := WithoutPage(pages, i);
      }
      if pages == [] {
        maybeSwapped := false;
      }
    }
  }

  /** Block `k` is replaced by one with the given pointer and size. */
  ghost predicate Replaced(before: seq<Block>, after: seq<Block>, k: nat, ptr: nat, size: nat) {
    k < |before| && Added(Without(before, k), after, ptr, size)
  }

  lemma WithoutThenAdd(live: seq<Block>, b: Block, k: nat)
    requires k < |live|
    ensures Without(live + [b], k) == Without(live, k) + [b]
  {
  }

  /** A swapped block that keeps its pointer and gets smaller. */
  lemma ShrinkInPlace(live: seq<Block>, pages: seq<Page>, nextSeq: nat, k: nat, size: nat)
    requires Inv(live, pages, nextSeq) && k < |live| && live[k].page.Some? && size <= live[k].size
    ensures var after := Without(live, k) + [live[k].(size := size)];
            Inv(after, pages, nextSeq) && MemTotal(after) == MemTotal(live)
  {
    var rest, b := Without(live, k), live[k].(size := size);
    var after := rest + [b];
    RemoveKeepsApart(live, k);
    WithoutCounts(live, k, 0);
    SnocCounts(rest, b, 0);
    forall i | 0 <= i < |pages| ensures pages[i].refs == RefCount(after, pages[i].seqno) {
      WithoutCounts(live, k, pages[i].seqno);
      SnocCounts(rest, b, pages[i].seqno);
    }
    forall j | 0 <= j < |rest|
      ensures Placed(rest[j], pages) && (rest[j].page.Some? ==> rest[j].page.value < nextSeq)
      ensures Apart(rest[j].ptr, rest[j].size, b.ptr, b.size)
    {
      WithoutAt(live, k, j);
      var m := if j < k then j else j + 1;
      assert if j < k then Apart(live[m].ptr, live[m].size, live[k].ptr, live[k].size)
             else Apart(live[k].ptr, live[k].size, live[m].ptr, live[m].size);
    }
    assert Placed(live[k], pages);
    assert Placed(b, pages);
  }

  /** The pages after a block left page `n`: it is released when no live block is left in it. */
  function Left(pages: seq<Page>, n: nat, remaining: nat): seq<Page>
    requires n < |pages|
  {
    if remaining == 0 then WithoutPage(pages, n) else pages[n := pages[n].(refs := remaining)]
  }

  /** A page that contains the pointer of a live block is the page of that block. */
  lemma PageOf(live: seq<Block>, pages: seq<Page>, nextSeq: nat, k: nat, i: nat)
    requires Inv(live, pages, nextSeq) && k < |live| && i < |pages| && pages[i].Contains(live[k].ptr)
    ensures live[k].page == Some(pages[i].seqno)
  {
    assert Placed(live[k], pages);
    if live[k].page.Some? {
      var n :| 0 <= n < |pages| && pages[n].seqno == live[k].page.value
               && pages[n].base <= live[k].ptr < pages[n].base + pages[n].size
               && live[k].ptr + live[k].size <= pages[n].base + pages[n].tail;
      assert n == i;
    }
  }

  /** A block whose pointer no page contains is in memory. */
  lemma InMemory(live: seq<Block>, pages: seq<Page>, nextSeq: nat, k: nat)
    requires Inv(live, pages, nextSeq) && k < |live| && forall i :: 0 <= i < |pages| ==> !pages[i].Contains(live[k].ptr)
    ensures live[k].page.None?
  {
    assert Placed(live[k], pages);
  }

  function PageSize(size: nat): nat { if size > DEFAULT_PAGE_SIZE then size else DEFAULT_PAGE_SIZE }

  /** One more block, behind the others. */
  ghost predicate Added(before: seq<Block>, after: seq<Block>, ptr: nat, size: nat) {
    |after| == |before| + 1 && after[..|before|] == before
    && after[|before|].ptr == ptr && after[|before|].size == size
  }

  lemma NextSeqGrows(live: seq<Block>, pages: seq<Page>, nextSeq: nat)
    requires Inv(live, pages, nextSeq)
    ensures Inv(live, pages, nextSeq + 1)
  {
  }

  lemma FreshBehind(ptr: nat, size: nat, live: seq<Block>, before: seq<Page>, pages: seq<Page>, newPage: Option<nat>, seqno: nat)
    requires FreshMemory(ptr, size, live, before)
    requires pages == before || (newPage.Some? && pages == before + [Page(seqno, newPage.value, PageSize(size), 0, 0)])
    requires newPage.Some? ==> Apart(ptr, size, newPage.value, PageSize(size))
                               && !(newPage.value <= ptr < newPage.value + PageSize(size))
    ensures FreshMemory(ptr, size, live, pages)
  {
  }
}
