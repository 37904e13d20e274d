/**
 Starting a miss, the return of its reads in either order, and the release of its locks by
 whichever read comes back last.
 */
module HybridMissSteps {
  import opened Basics
  import opened HybridGeometry
  import opened InOrderMemory
  import opened HybridController
  import opened HybridLocks
  import opened HybridTables
  import opened HybridLockSteps

  ghost predicate MissReady(c: Config, k: Core, tb: Tables, t: Txn, a: Addr)
    requires Good(c)
  {
    Locked(c, k, tb, {a}) && Align(c, t.addr) == a && Absent(c, k.cache, a.page)
  }

  /** No operation is about a page that is neither cached nor pending. */
  lemma NotThatPage(c: Config, k: Core, page: nat, b: Addr, active: set<Addr>)
    requires Good(c) && Held(c, k, active) && Lines(c, k.cache, k.ops)
    requires Absent(c, k.cache, page) && page !in k.pendingPages && b in k.ops
    ensures b.page != page
  {
    hide PageOf, SetOf, TagOf, Align, NumSets, Sound;
    assert OpShape(c, b, k.ops[b]) && LineOf(c, k.cache, b, k.ops[b]) && Owns(c, k.owner, b, k.ops[b]);
  }

  /** No operation is about the page of a line it does not use. */
  lemma OpElsewhere(c: Config, k: Core, slot: Slot, v: nat, b: Addr, active: set<Addr>)
    requires Good(c) && Held(c, k, active) && Lines(c, k.cache, k.ops) && IsSlot(c, slot) && Caches(c, k.cache, slot, v)
    requires b in k.ops && k.ops[b].slot != slot
    ensures b.page != v
  {
    hide PageOf, SetOf, TagOf, Align, NumSets, Sound;
    assert OpShape(c, b, k.ops[b]) && LineOf(c, k.cache, b, k.ops[b]);
  }

  /** The page of an unused valid line is not pending. */
  lemma OwnerElsewhere(c: Config, k: Core, slot: Slot, v: nat, active: set<Addr>)
    requires Good(c) && Held(c, k, active) && Lines(c, k.cache, k.ops) && IsSlot(c, slot) && Caches(c, k.cache, slot, v)
    requires forall b :: b in k.ops ==> k.ops[b].slot != slot
    ensures v !in k.pendingPages
  {
    hide PageOf, SetOf, TagOf, Align, NumSets, Sound;
    if v in k.pendingPages {
      var b := k.owner[v];
      assert Owned(c, k.ops, b, v, k.pendingPages[v]);
      OpElsewhere(c, k, slot, v, b, active);
      assert OpShape(c, b, k.ops[b]) && LineOf(c, k.cache, b, k.ops[b]);
      if k.ops[b].lineOut {
        VictimIsCached(c, k.cache, k.ops[b].slot);
        OneSlot(c, k.cache, slot, k.ops[b].slot, v);
      }
    }
  }

  /** The facts a miss starts from: the chosen line is free and its page is nobody's business. */
  lemma MissFacts(c: Config, k: Core, tb: Tables, t: Txn, a: Addr)
    requires Good(c) && MissReady(c, k, tb, t, a)
    ensures var slot := MissSlot(c, k.cache, SetOf(c, a.page));
            var l := LineIn(k.cache, slot);
            var v := PageOf(c, l.tag, slot.set_);
            && IsSlot(c, slot) && slot.set_ == SetOf(c, a.page) && CountIn(k.setCounter, slot.set_) < c.setSize
            && a !in k.ops && a.page !in k.pendingPages
            && l.lockCount == 0 && !l.locked && (l.dirty ==> l.valid)
            && (forall b :: b in k.ops ==> k.ops[b].slot != slot && b.page != a.page)
            && (l.valid ==> v != a.page && v !in k.pendingPages && forall b :: b in k.ops ==> b.page != v)
            && OpShape(c, a, MissOp(t, slot, l)) && LineOf(c, k.cache, a, MissOp(t, slot, l))
  {
    hide Tabled, PageOf, SetOf, TagOf, Align, NumSets;
    var set_ := SetOf(c, a.page);
    assert a in {a};
    PageSplit(c, a.page);
    VictimExists(c, k, set_, {a});
    var slot := MissSlot(c, k.cache, set_);
    var l := LineIn(k.cache, slot);
    assert LineShape(l, Holders(k.ops, slot));
    forall b | b in k.ops ensures k.ops[b].slot != slot { assert b in Holders(k.ops, k.ops[b].slot); }
    forall b | b in k.ops ensures b.page != a.page { NotThatPage(c, k, a.page, b, {a}); }
    if l.valid {
      VictimIsCached(c, k.cache, slot);
      var v := PageOf(c, l.tag, slot.set_);
      forall b | b in k.ops ensures b.page != v { OpElsewhere(c, k, slot, v, b, {a}); }
      OwnerElsewhere(c, k, slot, v, {a});
    }
  }

  /** The lock tables once a miss is under way. */
  ghost function MissCore(c: Config, k: Core, t: Txn, a: Addr, slot: Slot): Core
    requires Good(c)
  {
    var l := LineIn(k.cache, slot);
    var op := MissOp(t, slot, l);
    k.(cache := k.cache[slot := l.(locked := true, lockCount := l.lockCount + 1)],
       setCounter := k.setCounter[slot.set_ := CountIn(k.setCounter, slot.set_) + 1],
       ops := k.ops[a := op], owner := MissOwner(c, k.owner, a, op),
           pendingPages := MissPages(c, k.pendingPages, a, op))
  }

  /** Its reads: the line from flash and, for a dirty victim, the victim from DRAM. */
  ghost function MissTables(c: Config, tb: Tables, t: Txn, a: Addr, slot: Slot, l: Line): Tables
    requires Good(c)
  {
    var p := MissPending(t, a, slot, l);
    var tb1 := tb.(flashWait := tb.flashWait[a.page := UpTo(Chunks(c))],
                   flashGot := tb.flashGot[a.page := NOTHING],
                   flashPending := tb.flashPending[a.page := p]);
    if l.dirty then
      tb1.(dramWait := tb.dramWait[slot := UpTo(Bursts(c))],
           dramGot := tb.dramGot[slot := NOTHING],
           dramPending := tb.dramPending[DAddr(slot, 0) := p.(op := VictimReadOp)])
    else tb1
  }

  ghost function MissOut(c: Config, o: Out, a: Addr, slot: Slot, l: Line): Out
    requires Good(c)
  {
    o.(flashQueue := o.flashQueue + ChunkReads(a.page, Chunks(c)),
       dramQueue := if l.dirty then o.dramQueue + PageReads(slot, Bursts(c)) else o.dramQueue)
  }

  lemma LockMissFields(c: Config, k: Core, t: Txn, a: Addr, slot: Slot)
    requires Good(c) && (LineIn(k.cache, slot).valid ==> PageOf(c, LineIn(k.cache, slot).tag, slot.set_) != a.page)
    ensures var k1 := LockMiss(c, k, t, a, slot);
            var k2 := MissCore(c, k, t, a, slot);
            && PageCount(k1, a.page) == 0
            && k1.(pendingPages := k1.pendingPages[a.page := if LineIn(k.cache, slot).dirty then 2 else 1]) == k2
  {
    hide PageOf, NumSets;
    var k1, k2 := LockMiss(c, k, t, a, slot), MissCore(c, k, t, a, slot);
    assert k1.pendingPages[a.page := if LineIn(k.cache, slot).dirty then 2 else 1] == k2.pendingPages;
  }

  lemma MissResult(c: Config, s: Ctl, t: Txn, a: Addr, slot: Slot)
    requires Good(c) && slot == MissSlot(c, s.core.cache, SetOf(c, a.page))
    requires var l := LineIn(s.core.cache, slot); l.valid ==> PageOf(c, l.tag, slot.set_) != a.page
    requires DAddr(slot, 0) !in s.tables.dramPending
    ensures ProcessMiss(c, s, t, a) ==
            Fine(s.(core := MissCore(c, s.core, t, a, slot),
                    tables := MissTables(c, s.tables, t, a, slot, LineIn(s.core.cache, slot)),
                    out := MissOut(c, s.out, a, slot, LineIn(s.core.cache, slot))))
  {
    hide PageOf, SetOf, MissSlot, NumSets, Chunks, Bursts, UpTo, ChunkReads, PageReads, Align, LockMiss, MissCore;
    LockMissFields(c, s.core, t, a, slot);
    var k1 := LockMiss(c, s.core, t, a, slot);
    assert k1.pendingPages[a.page := 1][a.page := 2] == k1.pendingPages[a.page := 2];
  }

  lemma MissLocked(c: Config, k: Core, tb: Tables, t: Txn, a: Addr, slot: Slot)
    requires Good(c) && MissReady(c, k, tb, t, a) && slot == MissSlot(c, k.cache, SetOf(c, a.page))
    ensures DAddr(slot, 0) !in tb.dramPending
    ensures Locked(c, MissCore(c, k, t, a, slot), MissTables(c, tb, t, a, slot, LineIn(k.cache, slot)), {})
  {
    hide Held, FlashTable, DramTable, Counted, Lines, PageOf, SetOf, TagOf, Align, NumSets, Caches, MissSlot, Chunks,
      Bursts, UpTo;
    var l := LineIn(k.cache, slot);
    var op := MissOp(t, slot, l);
    var p := MissPending(t, a, slot, l);
    var l' := l.(locked := true, lockCount := l.lockCount + 1);
    MissFacts(c, k, tb, t, a);
    DramSlotFree(c, k.ops, tb.dramPending, tb.dramWait, slot);
    HeldAddMiss(c, k, a, op);
    HeldCacheIrrelevant(c, k.(ops := k.ops[a := op], owner := MissOwner(c, k.owner, a, op),
                              pendingPages := MissPages(c, k.pendingPages, a, op)), MissCore(c, k, t, a, slot), {});
    LinesLock(c, k.cache, k.ops, a, op, l');
    CountedShift(c, k.cache, k.setCounter, {a}, slot, l', {});
    FlashAddMiss(c, k.ops, tb.flashPending, tb.flashWait, a, op, p);
    if l.dirty {
      DramAddVictim(c, k.ops, tb.dramPending, tb.dramWait, a, op, p.(op := VictimReadOp));
    } else {
      DramAddMiss(c, k.ops, tb.dramPending, tb.dramWait, a, op);
    }
  }

  lemma Miss(c: Config, s: Ctl, t: Txn, a: Addr, slot: Slot)
    requires Good(c) && MissReady(c, s.core, s.tables, t, a) && slot == MissSlot(c, s.core.cache, SetOf(c, a.page))
    ensures ProcessMiss(c, s, t, a) ==
            Fine(s.(core := MissCore(c, s.core, t, a, slot),
                    tables := MissTables(c, s.tables, t, a, slot, LineIn(s.core.cache, slot)),
                    out := MissOut(c, s.out, a, slot, LineIn(s.core.cache, slot))))
  {
    hide Locked, MissSlot, MissCore, MissTables, MissOut, ProcessMiss;
    MissFacts(c, s.core, s.tables, t, a);
    MissLocked(c, s.core, s.tables, t, a, slot);
    MissResult(c, s, t, a, slot);
  }

  // The end of an operation.

  lemma OpFacts(c: Config, k: Core, a: Addr, active: set<Addr>)
    requires Good(c) && Held(c, k, active) && Lines(c, k.cache, k.ops) && Counted(c, k.cache, k.setCounter, active)
             && a in k.ops
    ensures OpShape(c, a, k.ops[a]) && LineOf(c, k.cache, a, k.ops[a]) && a in k.pendingFlash
    ensures LineIn(k.cache, k.ops[a].slot).lockCount >= 1 && 1 <= CountIn(k.setCounter, k.ops[a].slot.set_) <= c.setSize
    ensures LineShape(LineIn(k.cache, k.ops[a].slot), Holders(k.ops, k.ops[a].slot))
    ensures k.ops[a].miss ==> a.page in k.pendingPages && k.pendingPages[a.page] == Outstanding(k.ops[a])
    ensures k.ops[a].miss && k.ops[a].victimValid ==>
              VictimPage(c, k.ops[a]) in k.pendingPages && VictimPage(c, k.ops[a]) != a.page
    ensures !k.ops[a].miss ==> a.page !in k.pendingPages
  {
    hide PageOf, SetOf, TagOf, Align, NumSets;
    assert OpShape(c, a, k.ops[a]) && Owns(c, k.owner, a, k.ops[a]);
    CountPositive(c, k, k.ops[a].slot.set_, active);
    assert SetCounted(c, k.cache, k.setCounter, k.ops[a].slot.set_);
    if k.ops[a].miss { assert Owned(c, k.ops, k.owner[a.page], a.page, k.pendingPages[a.page]); }
  }

  function UnlockedLine(l: Line): Line { l.(lockCount := l.lockCount - 1, locked := l.locked && l.lockCount != 1) }

  function EndHitCore(k: Core, a: Addr, slot: Slot): Core {
    k.(cache := k.cache[slot := UnlockedLine(LineIn(k.cache, slot))],
       setCounter := k.setCounter[slot.set_ := CountIn(k.setCounter, slot.set_) - 1],
       ops := k.ops - {a}, pendingFlash := k.pendingFlash - {a})
  }

  lemma DramEntryFacts(c: Config, k: Core, tb: Tables, key: DAddr, active: set<Addr>)
    requires Good(c) && Locked(c, k, tb, active) && key in tb.dramPending
    ensures DramEntry(k.ops, tb.dramWait, key, tb.dramPending[key])
  {
    hide Held, FlashTable, Counted, Lines;
  }

  lemma EndHitRelease(k: Core, a: Addr, victimPage: nat, slot: Slot)
    requires a.page !in k.pendingPages && a in k.pendingFlash
    requires LineIn(k.cache, slot).lockCount >= 1 && CountIn(k.setCounter, slot.set_) >= 1
    ensures Release(k, a, false, victimPage, slot) == Fine(EndHitCore(k, a, slot))
  {
  }

  /** A cache read comes back. */
  lemma EndHitLocked(c: Config, k: Core, tb: Tables, key: DAddr, active: set<Addr>)
    requires Good(c) && Locked(c, k, tb, active) && key in tb.dramPending && tb.dramPending[key].op == CacheReadOp
    ensures var p := tb.dramPending[key];
            && p.flash in k.ops && !p.callbackSent && !p.victimValid && !k.ops[p.flash].miss
               && p.slot == k.ops[p.flash].slot
            && p.txn == k.ops[p.flash].txn && p.flash.page !in k.pendingPages
            && Release(k, p.flash, p.victimValid, PageOf(c, p.victimTag, p.slot.set_), p.slot)
               == Fine(EndHitCore(k, p.flash, p.slot))
            && Locked(c, EndHitCore(k, p.flash, p.slot), tb.(dramPending := tb.dramPending - {key}), active)
  {
    hide Held, FlashTable, DramTable, Counted, Lines, PageOf, SetOf, TagOf, Align, NumSets, Caches, Release;
    DramEntryFacts(c, k, tb, key, active);
    var p := tb.dramPending[key];
    var a := p.flash;
    OpFacts(c, k, a, active);
    HeldEndHit(c, k, a, active);
    var l' := UnlockedLine(LineIn(k.cache, p.slot));
    LinesUnlock(c, k.cache, k.ops, a, l');
    CountedShift(c, k.cache, k.setCounter, active, p.slot, l', active);
    FlashDrop(c, k.ops, tb.flashPending, tb.flashWait, a);
    DramEndHit(c, k.ops, tb.dramPending, tb.dramWait, key);
    HeldCacheIrrelevant(c, k.(ops := k.ops - {a}, pendingFlash := k.pendingFlash - {a}), EndHitCore(k, a, p.slot),
        active);
    EndHitRelease(k, a, PageOf(c, p.victimTag, p.slot.set_), p.slot);
  }

  // The reads of a miss.

  lemma FlashEntryFacts(c: Config, k: Core, tb: Tables, page: nat, active: set<Addr>)
    requires Good(c) && Locked(c, k, tb, active) && page in tb.flashPending
    ensures page in tb.flashWait && page in tb.flashGot
    ensures FlashEntry(c, k.ops, page, tb.flashPending[page], tb.flashWait[page])
  {
    hide Held, DramTable, Counted, Lines;
  }

  /** What other operations cannot be about, while a miss is in flight. */
  lemma MissAlone(c: Config, k: Core, a: Addr, active: set<Addr>)
    requires Good(c) && Held(c, k, active) && Lines(c, k.cache, k.ops) && a in k.ops && k.ops[a].miss
    ensures forall b :: b in k.ops && b != a ==> k.ops[b].slot != k.ops[a].slot && b.page != a.page
    ensures forall b :: b in k.ops && k.ops[b].victimValid ==> VictimPage(c, k.ops[b]) != a.page
  {
    hide PageOf, SetOf, TagOf, Align, NumSets, Lines;
    assert Exclusive(k.ops, a) && Owns(c, k.owner, a, k.ops[a]);
    forall b | b in k.ops
      ensures b != a ==> k.ops[b].slot != k.ops[a].slot && b.page != a.page
      ensures k.ops[b].victimValid ==> VictimPage(c, k.ops[b]) != a.page
    {
      assert Owns(c, k.owner, b, k.ops[b]) && OpShape(c, b, k.ops[b]);
    }
  }

  function LineCore(k: Core, a: Addr, l: Line): Core
    requires a in k.ops
  {
    var op := k.ops[a].(lineOut := false);
    k.(cache := k.cache[op.slot := l], ops := k.ops[a := op],
        pendingPages := k.pendingPages[a.page := PageCount(k, a.page) - 1])
  }

  function VictimCore(k: Core, a: Addr): Core
    requires a in k.ops
  {
    k.(ops := k.ops[a := k.ops[a].(victimOut := false)],
        pendingPages := k.pendingPages[a.page := PageCount(k, a.page) - 1])
  }

  ghost function EndMissCore(c: Config, k: Core, a: Addr, l: Line): Core
    requires Good(c) && a in k.ops
  {
    var slot := k.ops[a].slot;
    var gone := MissGone(c, a, k.ops[a]);
    k.(cache := k.cache[slot := UnlockedLine(l)],
       setCounter := k.setCounter[slot.set_ := CountIn(k.setCounter, slot.set_) - 1],
       ops := k.ops - {a}, pendingFlash := k.pendingFlash - {a},
       owner := k.owner - gone, pendingPages := k.pendingPages - gone)
  }

  function LineTables(tb: Tables, page: nat): Tables {
    tb.(flashPending := tb.flashPending - {page}, flashWait := tb.flashWait - {page}, flashGot := tb.flashGot - {page})
  }

  function VictimTables(tb: Tables, slot: Slot): Tables {
    tb.(dramPending := tb.dramPending - {DAddr(slot, 0)}, dramWait := tb.dramWait - {slot},
        dramGot := tb.dramGot - {slot})
  }

  ghost predicate RefilledLine(c: Config, k: Core, a: Addr, l: Line)
    requires Good(c) && a in k.ops
  {
    var l0 := LineIn(k.cache, k.ops[a].slot);
    l.valid && l.tag == TagOf(c, a.page) && l.locked == l0.locked && l.lockCount == l0.lockCount
  }

  /** The line arrives while the victim is still being read: the locks stay. */
  lemma LineDoneLocked(c: Config, k: Core, tb: Tables, page: nat, l: Line, active: set<Addr>)
    requires Good(c) && Locked(c, k, tb, active) && page in tb.flashPending
    requires var a := tb.flashPending[page].flash; a in k.ops && k.ops[a].victimOut && RefilledLine(c, k, a, l)
    ensures Locked(c, LineCore(k, tb.flashPending[page].flash, l), LineTables(tb, page), active)
  {
    hide Held, FlashTable, DramTable, Counted, Lines, PageOf, SetOf, TagOf, Align, NumSets, Caches;
    FlashEntryFacts(c, k, tb, page, active);
    var a := tb.flashPending[page].flash;
    var op := k.ops[a].(lineOut := false);
    OpFacts(c, k, a, active);
    MissAlone(c, k, a, active);
    HeldProgress(c, k, a, op, active);
    LinesRefill(c, k.cache, k.ops, a, op, l);
    CountedTouch(c, k.cache, k.setCounter, active, op.slot, l);
    FlashLineDone(c, k.ops, tb.flashPending, tb.flashWait, page);
    DramFlags(c, k.ops, tb.dramPending, tb.dramWait, a, op);
    HeldCacheIrrelevant(c, k.(ops := k.ops[a := op], pendingPages := k.pendingPages[a.page := Outstanding(op)]),
        LineCore(k, a, l), active);
  }

  /** The line arrives last: the page, the victim, the line and the address are all released. */
  lemma LineLastLocked(c: Config, k: Core, tb: Tables, page: nat, l: Line, active: set<Addr>)
    requires Good(c) && Locked(c, k, tb, active) && page in tb.flashPending
    requires var a := tb.flashPending[page].flash; a in k.ops && !k.ops[a].victimOut && RefilledLine(c, k, a, l)
    ensures Locked(c, EndMissCore(c, k, tb.flashPending[page].flash, l), LineTables(tb, page), active)
  {
    hide Held, FlashTable, DramTable, Counted, Lines, PageOf, SetOf, TagOf, Align, NumSets, Caches, MissGone;
    FlashEntryFacts(c, k, tb, page, active);
    var a := tb.flashPending[page].flash;
    var op := k.ops[a].(lineOut := false);
    OpFacts(c, k, a, active);
    MissAlone(c, k, a, active);
    HeldEndMiss(c, k, a, active);
    EndMissLines(c, k.cache, k.ops, a, op, l);
    CountedShift(c, k.cache, k.setCounter, active, op.slot, UnlockedLine(l), active);
    FlashLineDone(c, k.ops, tb.flashPending, tb.flashWait, page);
    FlashDrop(c, k.ops[a := op], tb.flashPending - {page}, tb.flashWait - {page}, a);
    DramDrop(c, k.ops, tb.dramPending, tb.dramWait, a);
    assert k.ops[a := op] - {a} == k.ops - {a};
    var gone := MissGone(c, a, k.ops[a]);
    HeldCacheIrrelevant(c, k.(ops := k.ops - {a}, pendingFlash := k.pendingFlash - {a}, owner := k.owner - gone,
                              pendingPages := k.pendingPages - gone), EndMissCore(c, k, a, l), active);
  }

  lemma EndMissLines(c: Config, cache: Cache, ops: Ops, a: Addr, op: Op, l: Line)
    requires Good(c) && Lines(c, cache, ops) && a in ops && ops[a].lineOut && op == ops[a].(lineOut := false)
    requires IsSlot(c, op.slot) && op.slot.set_ == SetOf(c, a.page)
    requires forall b :: b in ops && b != a ==> ops[b].slot != op.slot && b.page != a.page
    requires forall b :: b in ops && ops[b].victimValid ==> VictimPage(c, ops[b]) != a.page
    requires l.valid && l.tag == TagOf(c, a.page)
    requires l.locked == LineIn(cache, op.slot).locked && l.lockCount == LineIn(cache, op.slot).lockCount
             && l.lockCount >= 1
    ensures Lines(c, cache[op.slot := UnlockedLine(l)], ops - {a})
  {
    hide Lines, SetOf, TagOf, PageOf, NumSets, Sound;
    LinesRefill(c, cache, ops, a, op, l);
    var cache1, ops1 := cache[op.slot := l], ops[a := op];
    LockedIff(c, cache1, ops1, op.slot);
    LinesUnlock(c, cache1, ops1, a, UnlockedLine(l));
    assert ops1 - {a} == ops - {a};
    assert cache1[op.slot := UnlockedLine(l)] == cache[op.slot := UnlockedLine(l)];
  }

  lemma LockedIff(c: Config, cache: Cache, ops: Ops, slot: Slot)
    requires Good(c) && Lines(c, cache, ops) && IsSlot(c, slot)
    ensures LineShape(LineIn(cache, slot), Holders(ops, slot))
  {
  }

  /** The victim arrives while the line is still on its way: the locks stay. */
  lemma VictimDoneLocked(c: Config, k: Core, tb: Tables, slot: Slot, active: set<Addr>)
    requires Good(c) && Locked(c, k, tb, active) && slot in tb.dramWait && DAddr(slot, 0) in tb.dramPending
    requires var a := tb.dramPending[DAddr(slot, 0)].flash; a in k.ops && k.ops[a].lineOut
    ensures Locked(c, VictimCore(k, tb.dramPending[DAddr(slot, 0)].flash), VictimTables(tb, slot), active)
  {
    hide Held, FlashTable, DramTable, Counted, Lines, PageOf, SetOf, TagOf, Align, NumSets, Caches;
    VictimEntryFacts(c, k, tb, slot, active);
    var a := tb.dramPending[DAddr(slot, 0)].flash;
    var op := k.ops[a].(victimOut := false);
    OpFacts(c, k, a, active);
    MissAlone(c, k, a, active);
    HeldProgress(c, k, a, op, active);
    LinesFlags(c, k.cache, k.ops, a, op);
    FlashFlags(c, k.ops, tb.flashPending, tb.flashWait, a, op);
    DramVictimDone(c, k.ops, tb.dramPending, tb.dramWait, slot);
  }

  lemma VictimEntryFacts(c: Config, k: Core, tb: Tables, slot: Slot, active: set<Addr>)
    requires Good(c) && Locked(c, k, tb, active) && slot in tb.dramWait
    ensures Waiting(c, tb.dramPending, slot, tb.dramWait[slot]) && slot in tb.dramGot
    ensures DramEntry(k.ops, tb.dramWait, DAddr(slot, 0), tb.dramPending[DAddr(slot, 0)])
  {
    hide Held, FlashTable, Counted, Lines;
    assert Waiting(c, tb.dramPending, slot, tb.dramWait[slot]);
  }

  /** The victim arrives last. */
  lemma VictimLastLocked(c: Config, k: Core, tb: Tables, slot: Slot, active: set<Addr>)
    requires Good(c) && Locked(c, k, tb, active) && slot in tb.dramWait && DAddr(slot, 0) in tb.dramPending
    requires var a := tb.dramPending[DAddr(slot, 0)].flash; a in k.ops && !k.ops[a].lineOut
    ensures Locked(c, EndMissCore(c, k, tb.dramPending[DAddr(slot, 0)].flash, LineIn(k.cache, slot)),
            VictimTables(tb, slot), active)
  {
    hide Held, FlashTable, DramTable, Counted, Lines, PageOf, SetOf, TagOf, Align, NumSets, Caches, MissGone;
    VictimEntryFacts(c, k, tb, slot, active);
    var a := tb.dramPending[DAddr(slot, 0)].flash;
    var op := k.ops[a].(victimOut := false);
    var l := LineIn(k.cache, slot);
    OpFacts(c, k, a, active);
    MissAlone(c, k, a, active);
    HeldEndMiss(c, k, a, active);
    LinesUnlock(c, k.cache, k.ops, a, UnlockedLine(l));
    CountedShift(c, k.cache, k.setCounter, active, slot, UnlockedLine(l), active);
    FlashDrop(c, k.ops, tb.flashPending, tb.flashWait, a);
    DramVictimDone(c, k.ops, tb.dramPending, tb.dramWait, slot);
    DramDrop(c, k.ops[a := op], tb.dramPending - {DAddr(slot, 0)}, tb.dramWait - {slot}, a);
    assert k.ops[a := op] - {a} == k.ops - {a};
    var gone := MissGone(c, a, k.ops[a]);
    HeldCacheIrrelevant(c, k.(ops := k.ops - {a}, pendingFlash := k.pendingFlash - {a}, owner := k.owner - gone,
                              pendingPages := k.pendingPages - gone), EndMissCore(c, k, a, l), active);
  }

  /** What contention_unlock does for a miss with no read outstanding. */
  lemma EndMissRelease(c: Config, k: Core, a: Addr, op: Op, l: Line)
    requires Good(c) && a in k.ops && op.slot == k.ops[a].slot && a in k.pendingFlash && a.page in k.pendingPages
    requires l.lockCount >= 1 && CountIn(k.setCounter, op.slot.set_) >= 1
    requires op.victimTag == k.ops[a].victimTag && op.victimValid == k.ops[a].victimValid
    requires op.victimValid ==> VictimPage(c, op) in k.pendingPages && VictimPage(c, op) != a.page
    ensures var k1 := k.(cache := k.cache[op.slot := l], ops := k.ops[a := op],
            pendingPages := k.pendingPages[a.page := 0]);
            MayRelease(k1, a) &&
            Release(k1, a, op.victimValid, VictimPage(c, op), op.slot) == Fine(EndMissCore(c, k, a, l))
  {
    hide PageOf, NumSets;
    var gone := MissGone(c, a, k.ops[a]);
    assert k.ops[a := op] - {a} == k.ops - {a};
    assert k.pendingPages[a.page := 0] - gone == k.pendingPages - gone;
    assert k.cache[op.slot := l][op.slot := UnlockedLine(l)] == k.cache[op.slot := UnlockedLine(l)];
  }
}
