/**
 The address macros of HybridSim.  The controller model works on structured addresses
 (page and burst, set and way); the lemmas here show that the raw 64-bit macros and the
 structured forms carry the same information.
 */
module HybridGeometry {
  import opened Arithmetic

  datatype Config = Config(pageSize: nat, setSize: nat, burst: nat, flashBurst: nat,
                           totalPages: nat, cachePages: nat, controllerDelay: nat)

  ghost predicate Sound(c: Config) {
    && c.pageSize > 0 && c.setSize > 0 && c.burst > 0 && c.flashBurst > 0 && c.totalPages > 0
    && c.cachePages >= c.setSize
    && c.pageSize % c.burst == 0
    && c.flashBurst % c.burst == 0
    && c.pageSize % c.flashBurst == 0
  }

  ghost predicate Good(c: Config) {
    Sound(c) && NumSets(c) > 0
  }

  /** A burst of the flash address space: a page number and the burst's index in the page. */
  datatype Addr = Addr(page: nat, off: nat)

  /** A cache line: PAGE_NUMBER(cache_addr) is way * NUM_SETS + set. */
  datatype Slot = Slot(set_: nat, way: nat)

  /** A burst of the DRAM, and one transfer unit of the flash. */
  datatype DAddr = DAddr(slot: Slot, off: nat)
  datatype FAddr = FAddr(page: nat, idx: nat)

  function NumSets(c: Config): nat
    requires c.setSize > 0
  {
    c.cachePages / c.setSize
  }

  // The raw macros.

  function PageNumber(c: Config, addr: nat): nat requires c.pageSize > 0 { addr / c.pageSize }

  function PageAddress(c: Config, addr: nat): nat requires c.pageSize > 0 { (addr / c.pageSize) * c.pageSize }

  function PageOffset(c: Config, addr: nat): nat requires c.pageSize > 0 { addr % c.pageSize }

  function SetIndex(c: Config, addr: nat): nat
    requires c.pageSize > 0 && c.setSize > 0 && NumSets(c) > 0
  {
    PageNumber(c, addr) % NumSets(c)
  }

  function Tag(c: Config, addr: nat): nat
    requires c.pageSize > 0 && c.setSize > 0 && NumSets(c) > 0
  {
    PageNumber(c, addr) / NumSets(c)
  }

  function FlashAddress(c: Config, tag: nat, set_: nat): nat
    requires c.setSize > 0
  {
    (tag * NumSets(c) + set_) * c.pageSize
  }

  function AlignRaw(c: Config, addr: nat): nat
    requires c.burst > 0 && c.totalPages * c.pageSize > 0
  {
    ((addr / c.burst) * c.burst) % (c.totalPages * c.pageSize)
  }

  // The structured forms.

  function Bursts(c: Config): nat requires c.burst > 0 { c.pageSize / c.burst }

  function Chunks(c: Config): nat requires c.flashBurst > 0 { c.pageSize / c.flashBurst }

  function ChunkOf(c: Config, off: nat): nat
    requires c.flashBurst > 0
  {
    (off * c.burst) / c.flashBurst
  }

  function SetOf(c: Config, page: nat): nat
    requires c.setSize > 0 && NumSets(c) > 0
  {
    page % NumSets(c)
  }

  function TagOf(c: Config, page: nat): nat
    requires c.setSize > 0 && NumSets(c) > 0
  {
    page / NumSets(c)
  }

  function PageOf(c: Config, tag: nat, set_: nat): nat
    requires c.setSize > 0
  {
    tag * NumSets(c) + set_
  }

  function Align(c: Config, addr: nat): Addr
    requires Sound(c)
  {
    assert c.totalPages * c.pageSize > 0 by { Positive(c); }
    var x := AlignRaw(c, addr);
    Addr(x / c.pageSize, (x % c.pageSize) / c.burst)
  }

  function RawAddr(c: Config, a: Addr): nat { a.page * c.pageSize + a.off * c.burst }

  function RawSlot(c: Config, s: Slot): nat
    requires c.setSize > 0
  {
    (s.way * NumSets(c) + s.set_) * c.pageSize
  }

  lemma Positive(c: Config)
    requires Sound(c)
    ensures c.totalPages * c.pageSize > 0
  {
  }

  // The structured address of a burst is faithful to ALIGN, PAGE_ADDRESS and PAGE_OFFSET.

  lemma AlignFaithful(c: Config, addr: nat)
    requires Sound(c)
    ensures var a := Align(c, addr);
            && a.page < c.totalPages && a.off < Bursts(c)
            && c.totalPages * c.pageSize > 0
            && RawAddr(c, a) == AlignRaw(c, addr)
            && AlignRaw(c, addr) < c.totalPages * c.pageSize
  {
    Positive(c);
    var m := c.totalPages * c.pageSize;
    var x := AlignRaw(c, addr);
    MultipleMod(addr / c.burst, c.burst);
    MulMultiple(c.totalPages, c.pageSize, c.burst);
    ModOfMultiple((addr / c.burst) * c.burst, c.burst, m);
    assert x % c.burst == 0;
    assert x < m;
    var p, o := x / c.pageSize, x % c.pageSize;
    assert x == p * c.pageSize + o;
    ModOfMultiple(x, c.burst, c.pageSize);
    assert o == (o / c.burst) * c.burst;
    assert p < c.totalPages by { QuotientBound(x, c.pageSize, c.totalPages); }
    OffsetBound(o / c.burst, c.burst, c.pageSize);
  }

  /** Below the capacity two addresses are aligned to one burst exactly if they lie in it. */
  lemma AlignSame(c: Config, x: nat, y: nat)
    requires Sound(c) && x < c.totalPages * c.pageSize && y < c.totalPages * c.pageSize
    ensures Align(c, x) == Align(c, y) <==> x / c.burst == y / c.burst
  {
    hide Align;
    AlignFaithful(c, x);
    AlignFaithful(c, y);
    AlignedBelow(c, x);
    AlignedBelow(c, y);
    MultipleMod(x / c.burst, c.burst);
    MultipleMod(y / c.burst, c.burst);
    if x / c.burst == y / c.burst { RawDiffers(c, Align(c, x), Align(c, y)); }
  }

  lemma AlignedBelow(c: Config, x: nat)
    requires Sound(c) && x < c.totalPages * c.pageSize
    ensures AlignRaw(c, x) == (x / c.burst) * c.burst
  {
    assert (x / c.burst) * c.burst <= x;
    DivModUnique((x / c.burst) * c.burst, c.totalPages * c.pageSize, 0, (x / c.burst) * c.burst);
  }

  lemma RawDiffers(c: Config, a: Addr, b: Addr)
    requires Sound(c) && a.off < Bursts(c) && b.off < Bursts(c) && RawAddr(c, a) == RawAddr(c, b)
    ensures a == b
  {
    BurstMacros(c, a);
    BurstMacros(c, b);
    MultipleMod(a.off, c.burst);
    MultipleMod(b.off, c.burst);
  }

  /** The macros on a burst address are the fields of the structured address. */
  lemma BurstMacros(c: Config, a: Addr)
    requires Sound(c) && a.off < Bursts(c)
    ensures PageNumber(c, RawAddr(c, a)) == a.page
    ensures PageAddress(c, RawAddr(c, a)) == a.page * c.pageSize
    ensures PageOffset(c, RawAddr(c, a)) == a.off * c.burst
  {
    OffsetBound(a.off, c.burst, c.pageSize);
    DivModUnique(RawAddr(c, a), c.pageSize, a.page, a.off * c.burst);
  }

  /** The macros on a cache line's address, and the assertion in CacheRead. */
  lemma SlotMacros(c: Config, s: Slot, off: nat)
    requires Good(c) && s.set_ < NumSets(c) && off < Bursts(c)
    ensures SetIndex(c, RawSlot(c, s)) == s.set_
    ensures Tag(c, RawSlot(c, s)) == s.way
    ensures PageAddress(c, RawSlot(c, s) + off * c.burst) == RawSlot(c, s)
  {
    var n := s.way * NumSets(c) + s.set_;
    OffsetBound(off, c.burst, c.pageSize);
    DivModUnique(n * c.pageSize, c.pageSize, n, 0);
    DivModUnique(n * c.pageSize + off * c.burst, c.pageSize, n, off * c.burst);
    DivModUnique(n, NumSets(c), s.way, s.set_);
  }

  /** The structured forms of TAG, SET_INDEX and FLASH_ADDRESS. */
  lemma FlashMacros(c: Config, a: Addr, tag: nat, set_: nat)
    requires Good(c) && a.off < Bursts(c)
    ensures Tag(c, RawAddr(c, a)) == TagOf(c, a.page) && SetIndex(c, RawAddr(c, a)) == SetOf(c, a.page)
    ensures FlashAddress(c, tag, set_) == PageOf(c, tag, set_) * c.pageSize
    ensures FlashAddress(c, Tag(c, RawAddr(c, a)), SetIndex(c, RawAddr(c, a))) == PageAddress(c, RawAddr(c, a))
  {
    BurstMacros(c, a);
    PageSplit(c, a.page);
  }

  /** A page is found again from its tag and its set. */
  lemma PageSplit(c: Config, page: nat)
    requires Good(c)
    ensures SetOf(c, page) < NumSets(c)
    ensures PageOf(c, TagOf(c, page), SetOf(c, page)) == page
  {
  }

  /** FLASH_ADDRESS of a cached line: its tag and set are found again. */
  lemma FlashJoin(c: Config, tag: nat, set_: nat)
    requires Good(c) && set_ < NumSets(c)
    ensures Tag(c, FlashAddress(c, tag, set_)) == tag && SetIndex(c, FlashAddress(c, tag, set_)) == set_
  {
    SomeUnits(c);
    PageJoin(c, tag, set_);
    FlashMacros(c, Addr(PageOf(c, tag, set_), 0), tag, set_);
  }

  lemma PageJoin(c: Config, tag: nat, set_: nat)
    requires Good(c) && set_ < NumSets(c)
    ensures TagOf(c, PageOf(c, tag, set_)) == tag
    ensures SetOf(c, PageOf(c, tag, set_)) == set_
  {
    DivModUnique(PageOf(c, tag, set_), NumSets(c), tag, set_);
  }

  /** Every burst of a page lies in one of the page's flash transfer units. */
  lemma ChunkInPage(c: Config, off: nat)
    requires Sound(c) && off < Bursts(c)
    ensures ChunkOf(c, off) < Chunks(c)
  {
    OffsetBound(off, c.burst, c.pageSize);
    var x := off * c.burst;
    var i := x / c.flashBurst;
    assert i * c.flashBurst <= x;
    OffsetBound(i, c.flashBurst, c.pageSize);
  }

  lemma SomeUnits(c: Config)
    requires Sound(c)
    ensures Bursts(c) > 0 && Chunks(c) > 0
  {
    OffsetBound(0, c.burst, c.pageSize);
    OffsetBound(0, c.flashBurst, c.pageSize);
  }
}
