/** Every lookup of the controller succeeds and keeps the locking invariant. */
module HybridLockSteps {
  import opened Basics
  import opened HybridGeometry
  import opened InOrderMemory
  import opened HybridController
  import opened HybridLocks
  import opened HybridTables

  lemma OnePage(c: Config, cache: Cache, slot: Slot, p: nat, q: nat)
    requires Good(c) && Caches(c, cache, slot, p) && Caches(c, cache, slot, q)
    ensures p == q
  {
    PageSplit(c, p);
    PageSplit(c, q);
  }

  lemma OneSlot(c: Config, cache: Cache, x: Slot, y: Slot, page: nat)
    requires Good(c) && UniqueTags(c, cache) && IsSlot(c, x) && IsSlot(c, y)
    requires Caches(c, cache, x, page) && Caches(c, cache, y, page)
    ensures x == y
  {
  }

  /** The page a valid line stands for. */
  lemma VictimIsCached(c: Config, cache: Cache, slot: Slot)
    requires Good(c) && IsSlot(c, slot) && LineIn(cache, slot).valid
    ensures Caches(c, cache, slot, PageOf(c, LineIn(cache, slot).tag, slot.set_))
  {
    PageJoin(c, LineIn(cache, slot).tag, slot.set_);
  }

  /** A line caching a page that is not pending is in use by no miss, only by hits on that page. */
  lemma FreePageNoMiss(c: Config, k: Core, slot: Slot, page: nat, b: Addr, active: set<Addr>)
    requires Good(c) && Held(c, k, active) && Lines(c, k.cache, k.ops) && IsSlot(c, slot)
             && Caches(c, k.cache, slot, page)
    requires page !in k.pendingPages && b in k.ops && k.ops[b].slot == slot
    ensures !k.ops[b].miss && b.page == page
  {
    hide PageOf, SetOf, TagOf, Align, NumSets, Sound;
    assert LineOf(c, k.cache, b, k.ops[b]) && Owns(c, k.owner, b, k.ops[b]);
    if k.ops[b].lineOut {
      VictimIsCached(c, k.cache, slot);
      OnePage(c, k.cache, slot, page, VictimPage(c, k.ops[b]));
    } else {
      OnePage(c, k.cache, slot, page, b.page);
    }
  }

  lemma {:induction false} SumNonNegative(cache: Cache, set_: nat, n: nat)
    requires forall w :: 0 <= w < n ==> LineIn(cache, Slot(set_, w)).lockCount >= 0
    ensures SumLocks(cache, set_, n) >= 0
    ensures forall w :: 0 <= w < n ==> SumLocks(cache, set_, n) >= LineIn(cache, Slot(set_, w)).lockCount
  {
    if n > 0 { SumNonNegative(cache, set_, n - 1); }
  }

  /** No counter is negative, and an operation's own lock is counted. */
  lemma CountPositive(c: Config, k: Core, set_: nat, active: set<Addr>)
    requires Good(c) && Lines(c, k.cache, k.ops) && Counted(c, k.cache, k.setCounter, active) && set_ < NumSets(c)
    ensures CountIn(k.setCounter, set_) >= 0
    ensures forall a :: a in k.ops && k.ops[a].slot.set_ == set_ && IsSlot(c, k.ops[a].slot) ==>
              LineIn(k.cache, k.ops[a].slot).lockCount >= 1 && CountIn(k.setCounter, set_) >= 1
  {
    assert SetCounted(c, k.cache, k.setCounter, set_);
    forall w | 0 <= w < c.setSize ensures LineIn(k.cache, Slot(set_, w)).lockCount >= 0 {
      assert IsSlot(c, Slot(set_, w));
    }
    SumNonNegative(k.cache, set_, c.setSize);
    forall a | a in k.ops && k.ops[a].slot.set_ == set_ && IsSlot(c, k.ops[a].slot)
      ensures LineIn(k.cache, k.ops[a].slot).lockCount >= 1
    {
      assert a in Holders(k.ops, k.ops[a].slot);
      assert LineShape(LineIn(k.cache, k.ops[a].slot), Holders(k.ops, k.ops[a].slot));
    }
  }

  // Hits.

  ghost predicate HitReady(c: Config, k: Core, tb: Tables, t: Txn, a: Addr, slot: Slot)
    requires Good(c)
  {
    Locked(c, k, tb, {a}) && Align(c, t.addr) == a && IsSlot(c, slot) && Caches(c, k.cache, slot, a.page)
  }

  /** The facts a hit starts from. */
  lemma HitFacts(c: Config, k: Core, tb: Tables, t: Txn, a: Addr, slot: Slot)
    requires Good(c) && HitReady(c, k, tb, t, a, slot)
    ensures a !in k.ops && a.page !in k.pendingPages && a in k.pendingFlash
    ensures slot.set_ == SetOf(c, a.page) && 0 <= CountIn(k.setCounter, slot.set_) < c.setSize
    ensures LineIn(k.cache, slot).lockCount >= 0 && LineIn(k.cache, slot).valid
    ensures LineIn(k.cache, slot).locked <==> LineIn(k.cache, slot).lockCount > 0
    ensures forall b :: b in k.ops && k.ops[b].slot == slot ==> !k.ops[b].miss
    ensures LineOf(c, k.cache, a, HitOp(t, slot))
    ensures t.kind == DataRead ==> OpShape(c, a, HitOp(t, slot))
  {
    hide Tabled, PageOf, TagOf, Align, NumSets, Sound;
    assert a in {a};
    forall b | b in k.ops && k.ops[b].slot == slot ensures !k.ops[b].miss {
      FreePageNoMiss(c, k, slot, a.page, b, {a});
    }
    CountPositive(c, k, slot.set_, {a});
  }

  lemma HitKeyFree(c: Config, k: Core, tb: Tables, t: Txn, a: Addr, slot: Slot)
    requires Good(c) && HitReady(c, k, tb, t, a, slot)
    ensures DAddr(slot, a.off) !in tb.dramPending
    ensures slot !in tb.dramWait
  {
    hide FlashTable, Counted, Lines, PageOf, SetOf, TagOf, Align, NumSets, Sound;
    var key := DAddr(slot, a.off);
    assert a in {a};
    if key in tb.dramPending {
      assert DramEntry(k.ops, tb.dramWait, key, tb.dramPending[key]);
      FreePageNoMiss(c, k, slot, a.page, tb.dramPending[key].flash, {a});
    }
    if slot in tb.dramWait {
      assert Waiting(c, tb.dramPending, slot, tb.dramWait[slot]);
      assert DramEntry(k.ops, tb.dramWait, DAddr(slot, 0), tb.dramPending[DAddr(slot, 0)]);
      FreePageNoMiss(c, k, slot, a.page, tb.dramPending[DAddr(slot, 0)].flash, {a});
    }
  }

  /** A read hit locks its line and files its DRAM read. */
  function ReadHitCore(k: Core, t: Txn, a: Addr, slot: Slot, now: nat): Core {
    var l := LineIn(k.cache, slot);
    k.(cache := k.cache[slot := l.(locked := true, lockCount := l.lockCount + 1, ts := now)],
       setCounter := k.setCounter[slot.set_ := CountIn(k.setCounter, slot.set_) + 1],
       ops := k.ops[a := HitOp(t, slot)])
  }

  function ReadHitTables(tb: Tables, t: Txn, a: Addr, slot: Slot): Tables {
    tb.(dramPending := tb.dramPending[DAddr(slot, a.off) := Pending(CacheReadOp, t, a, slot, 0, false, false)])
  }

  lemma ReadHitLocked(c: Config, k: Core, tb: Tables, t: Txn, a: Addr, slot: Slot, now: nat)
    requires Good(c) && HitReady(c, k, tb, t, a, slot) && t.kind == DataRead
    ensures Locked(c, ReadHitCore(k, t, a, slot, now), ReadHitTables(tb, t, a, slot), {})
  {
    hide Held, FlashTable, DramTable, Counted, Lines, PageOf, SetOf, TagOf, Align, NumSets, Sound, Caches;
    var l := LineIn(k.cache, slot);
    var op := HitOp(t, slot);
    var l' := l.(locked := true, lockCount := l.lockCount + 1, ts := now);
    HitFacts(c, k, tb, t, a, slot);
    HitKeyFree(c, k, tb, t, a, slot);
    HeldAddHit(c, k, a, op);
    LinesLock(c, k.cache, k.ops, a, op, l');
    CountedShift(c, k.cache, k.setCounter, {a}, slot, l', {});
    FlashFlags(c, k.ops, tb.flashPending, tb.flashWait, a, op);
    DramAddHit(c, k.ops, tb.dramPending, tb.dramWait, a, op, Pending(CacheReadOp, t, a, slot, 0, false, false));
    HeldCacheIrrelevant(c, k.(ops := k.ops[a := op]), ReadHitCore(k, t, a, slot, now), {});
  }

  lemma HeldCacheIrrelevant(c: Config, k: Core, k': Core, active: set<Addr>)
    requires Good(c) && Held(c, k, active)
    requires k' == k.(cache := k'.cache, setCounter := k'.setCounter)
    ensures Held(c, k', active)
  {
    hide Shaped, Paged;
  }

  lemma ReadHit(c: Config, s: Ctl, t: Txn, a: Addr, slot: Slot)
    requires Good(c) && HitReady(c, s.core, s.tables, t, a, slot) && t.kind == DataRead
    ensures ProcessHit(c, s, t, a, slot) ==
            Fine(s.(core := ReadHitCore(s.core, t, a, slot, s.front.now),
                    tables := ReadHitTables(s.tables, t, a, slot),
                    out := s.out.(dramQueue := s.out.dramQueue + [Rd(DAddr(slot, a.off))])))
  {
    HitKeyFree(c, s.core, s.tables, t, a, slot);
    hide Locked;
    var k := s.core;
    var l := LineIn(k.cache, slot);
    var l1 := l.(locked := true, lockCount := l.lockCount + 1);
    assert k.cache[slot := l1][slot := l1.(ts := s.front.now)] == k.cache[slot := l1.(ts := s.front.now)];
  }

  /** A hit that finishes at once leaves the locks as they were. */
  function HitDone(k: Core, a: Addr, slot: Slot, l: Line): Core {
    k.(cache := k.cache[slot := l], setCounter := k.setCounter[slot.set_ := CountIn(k.setCounter, slot.set_)],
       pendingFlash := k.pendingFlash - {a})
  }

  lemma HitDoneLocked(c: Config, k: Core, tb: Tables, t: Txn, a: Addr, slot: Slot, l: Line)
    requires Good(c) && HitReady(c, k, tb, t, a, slot)
    requires l == LineIn(k.cache, slot).(dirty := l.dirty, ts := l.ts)
    ensures Locked(c, HitDone(k, a, slot, l), tb, {})
  {
    hide Held, FlashTable, DramTable, Counted, Lines, SetOf, PageOf, TagOf, Align, NumSets, Sound, Caches;
    HitFacts(c, k, tb, t, a, slot);
    HeldDropActive(c, k, a);
    LinesTouch(c, k.cache, k.ops, slot, l);
    CountedShift(c, k.cache, k.setCounter, {a}, slot, l, {});
    HeldCacheIrrelevant(c, k.(pendingFlash := k.pendingFlash - {a}), HitDone(k, a, slot, l), {});
  }

  /** Locking a line for a hit and releasing it again. */
  lemma LockRelease(k: Core, t: Txn, a: Addr, slot: Slot, l: Line, victimPage: nat)
    requires a !in k.ops && a.page !in k.pendingPages && a in k.pendingFlash
    requires l.lockCount >= 0 && (l.locked <==> l.lockCount > 0) && CountIn(k.setCounter, slot.set_) >= 0
    ensures var k1 := k.(cache := k.cache[slot := l.(locked := true, lockCount := l.lockCount + 1)],
                         setCounter := k.setCounter[slot.set_ := CountIn(k.setCounter, slot.set_) + 1],
                         ops := k.ops[a := HitOp(t, slot)]);
            Release(k1, a, false, victimPage, slot) == Fine(HitDone(k, a, slot, l))
  {
    assert k.ops[a := HitOp(t, slot)] - {a} == k.ops;
    var l1 := l.(locked := true, lockCount := l.lockCount + 1);
    assert k.cache[slot := l1][slot := l] == k.cache[slot := l];
    var n := CountIn(k.setCounter, slot.set_);
    assert k.setCounter[slot.set_ := n + 1][slot.set_ := n] == k.setCounter[slot.set_ := n];
  }

  function Woken(f: Front): Front { f.(checkQueue := true, pendingCount := f.pendingCount - 1) }

  lemma PrefetchHit(c: Config, s: Ctl, t: Txn, a: Addr, slot: Slot)
    requires Good(c) && HitReady(c, s.core, s.tables, t, a, slot) && t.kind == Prefetch
    ensures ProcessHit(c, s, t, a, slot) ==
            Fine(s.(core := HitDone(s.core, a, slot, LineIn(s.core.cache, slot)), front := Woken(s.front)))
  {
    hide Locked, Release, HitDone;
    HitFacts(c, s.core, s.tables, t, a, slot);
    LockRelease(s.core, t, a, slot, LineIn(s.core.cache, slot), 0);
  }

  function Written(k: Core, slot: Slot, now: nat): Line {
    LineIn(k.cache, slot).(dirty := true, valid := true, ts := now)
  }

  lemma WriteHit(c: Config, s: Ctl, t: Txn, a: Addr, slot: Slot)
    requires Good(c) && HitReady(c, s.core, s.tables, t, a, slot) && t.kind == DataWrite && t.addr in s.out.logMap
    ensures ProcessHit(c, s, t, a, slot) ==
            Fine(s.(core := HitDone(s.core, a, slot, Written(s.core, slot, s.front.now)), front := Woken(s.front),
                    out := s.out.(dramQueue := s.out.dramQueue + [Wr(DAddr(slot, a.off), t.data)],
                                  done := s.out.done + [Completion(true, t.id, CallbackAddr(t.addr), t.data)],
                                  logMap := s.out.logMap - {t.addr})))
  {
    hide Locked, Release, HitDone;
    HitFacts(c, s.core, s.tables, t, a, slot);
    var k := s.core;
    var l := Written(k, slot, s.front.now);
    LockRelease(k, t, a, slot, l, PageOf(c, 0, slot.set_));
    var l1 := LineIn(k.cache, slot).(locked := true, lockCount := l.lockCount + 1);
    var l2 := l.(locked := true, lockCount := l.lockCount + 1);
    assert k.cache[slot := l1][slot := l2] == k.cache[slot := l2];
  }
}
