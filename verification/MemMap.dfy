/** Page-aligned mapping and unmapping, linux_user/src/raw/memmap.c without its pre-silicon branches. */
module MemMap {
  import opened Options
  import opened Words

  /** The byte range handed to mmap or munmap. */
  datatype Span = Span(start: nat, len: nat)

  predicate PageSize(pg: int) { 0 < pg <= MAX_LONG }

  predicate Covers(span: Span, base: nat, size: nat)
  {
    span.start <= base && base + size <= span.start + span.len
  }

  /** The range both directions derive from an address and a size. */
  function PageSpan(addr: nat, size: nat, pg: int): Span
    requires PageSize(pg)
  {
    Span(addr - addr % pg, ToU32(size + addr % pg))
  }

  lemma AlignDown(addr: nat, pg: int)
    requires PageSize(pg)
    ensures addr / pg * pg == addr - addr % pg
    ensures (addr - addr % pg) % pg == 0
  {
    var q, r := addr / pg, addr % pg;
    assert addr == q * pg + r;
    ModOfMultiple(q, 0, pg);
  }

  lemma ModOfMultiple(q: int, r: int, pg: int)
    requires 0 <= r < pg
    ensures (q * pg + r) % pg == r
  {
    var x := q * pg + r;
    var q', r' := x / pg, x % pg;
    assert x == q' * pg + r';
    assert (q - q') * pg == r' - r;
    StepsOutOfPage(q - q', pg);
  }

  lemma StepsOutOfPage(k: int, pg: int)
    requires 0 < pg
    ensures k >= 1 ==> k * pg >= pg
    ensures k <= -1 ==> k * pg <= -pg
  {
  }

  lemma AlignedPlus(page: nat, offset: int, pg: int)
    requires PageSize(pg) && page % pg == 0 && 0 <= offset < pg
    ensures (page + offset) % pg == offset
  {
    var q := page / pg;
    assert page == q * pg + page % pg;
    ModOfMultiple(q, offset, pg);
  }

  /** The truncating division both directions start with. */
  method WholePages(addr: nat, pg: int) returns (aligned: nat)
    requires IsU32(addr) && PageSize(pg)
    ensures 0 <= addr % pg < pg && aligned == addr - addr % pg
  {
    AlignDown(addr, pg);
    aligned := addr / pg * pg;
  }

  /** os_map_io_to_mem_cache: signed intermediates. `mmio` is mmap's answer, None for MAP_FAILED. */
  method MapCached(base: nat, size: nat, pg: int, fileOpen: bool, mmio: Option<nat>)
    returns (asked: Option<Span>, ptr: Option<nat>)
    requires IsU32(base) && IsU32(size) && PageSize(pg)
    ensures asked == if fileOpen then Some(PageSpan(base, size, pg)) else None
    ensures ptr == if fileOpen && mmio.Some? then Some(ToU32(mmio.value + base % pg)) else None
  {
    var aligned := WholePages(base, pg);
    var alignedBase := ToS32(aligned);
    SignedDetour(aligned);
    SignedDetour(base - aligned);
    var offset := ToS32(base - ToU32(alignedBase));
    var length := ToU32(size + offset);
    if !fileOpen {
      return None, None;
    }
    asked := Some(Span(ToU32(alignedBase), length));
    if mmio.None? {
      return asked, None;
    }
    ptr := Some(ToU32(mmio.value + offset));
  }

  /** os_map_io_to_mem_nocache: the same with unsigned intermediates. */
  method MapUncached(base: nat, size: nat, pg: int, fileOpen: bool, mmio: Option<nat>)
    returns (asked: Option<Span>, ptr: Option<nat>)
    requires IsU32(base) && IsU32(size) && PageSize(pg)
    ensures asked == if fileOpen then Some(PageSpan(base, size, pg)) else None
    ensures ptr == if fileOpen && mmio.Some? then Some(ToU32(mmio.value + base % pg)) else None
  {
    var aligned := WholePages(base, pg);
    var alignedBase := ToU32(aligned);
    var offset := ToU32(base - alignedBase);
    assert offset == base % pg;
    var length := ToU32(size + offset);
    if !fileOpen {
      return None, None;
    }
    asked := Some(Span(alignedBase, length));
    if mmio.None? {
      return asked, None;
    }
    ptr := Some(ToU32(mmio.value + offset));
  }

  /** os_unmap_io_from_mem: the range given to munmap. */
  method Unmap(ptr: nat, size: nat, pg: int) returns (released: Span)
    requires IsU32(ptr) && IsU32(size) && PageSize(pg)
    ensures released == PageSpan(ptr, size, pg)
  {
    var aligned := WholePages(ptr, pg);
    var alignedBase := ToS32(aligned);
    SignedDetour(aligned);
    SignedDetour(ptr - aligned);
    var offset := ToS32(ptr - ToU32(alignedBase));
    released := Span(ToU32(alignedBase), ToU32(size + offset));
  }

  /** The mapped range starts on a page and contains every requested byte, with less than a page
      in front, exactly when the lengthened size does not wrap. */
  lemma MappingCoversExactly(base: nat, size: nat, pg: int)
    requires IsU32(base) && 0 < size < WORD && PageSize(pg)
    ensures var span := PageSpan(base, size, pg);
      && span.start % pg == 0
      && span.start <= base && base - span.start < pg
      && span.len < WORD && (span.start + span.len - (base + size)) % WORD == 0
      && (size + base % pg < WORD ==> span.start + span.len == base + size)
      && (Covers(span, base, size) <==> size + base % pg < WORD)
  {
    AlignDown(base, pg);
  }

  /** Unmapping the pointer a mapping returned, with the size it was asked for, releases the range
      mmap handed out: same start, same length. Holds even when the length has wrapped. */
  lemma UnmapUndoesMap(base: nat, size: nat, pg: int, mmio: nat)
    requires IsU32(base) && IsU32(size) && PageSize(pg)
    requires mmio % pg == 0 && mmio + base % pg < WORD
    ensures PageSpan(ToU32(mmio + base % pg), size, pg) == Span(mmio, PageSpan(base, size, pg).len)
  {
    AlignedPlus(mmio, base % pg, pg);
    SignedDetour(mmio + base % pg);
  }

  /** The life of one uncached mapping. */
  method MapThenUnmap(base: nat, size: nat, pg: int, mmio: nat) returns (mapped: Span, released: Span)
    requires IsU32(base) && IsU32(size) && PageSize(pg)
    requires mmio % pg == 0 && mmio + base % pg < WORD
    ensures mapped.start == base - base % pg
    ensures released == Span(mmio, mapped.len)
  {
    var asked, ptr := MapUncached(base, size, pg, true, Some(mmio));
    released := Unmap(ptr.value, size, pg);
    UnmapUndoesMap(base, size, pg, mmio);
    mapped := asked.value;
  }
}
