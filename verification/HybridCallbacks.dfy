/** The callbacks of the two memories: what each does, that it cannot fail, and that it keeps the locks. */
module HybridCallbacks {
  import opened Basics
  import opened HybridGeometry
  import opened InOrderMemory
  import opened HybridController
  import opened HybridLocks
  import opened HybridTables
  import opened HybridLockSteps
  import opened HybridMissSteps

  /** The callback to the requester, unless the critical-line callback has already made it. */
  function Reported(o: Out, isWrite: bool, txn: Txn, value: int, sent: bool): Out {
    if sent then o
    else o.(done := o.done + [Completion(isWrite, txn.id, CallbackAddr(txn.addr), value)],
        logMap := o.logMap - {txn.addr})
  }

  // DRAM.

  lemma CacheReadBack(c: Config, s: Ctl, key: DAddr, value: int, active: set<Addr>)
    requires Good(c) && Locked(c, s.core, s.tables, active)
    requires key.slot !in s.tables.dramWait && key in s.tables.dramPending
    requires s.tables.dramPending[key].txn.addr in s.out.logMap
    ensures var p := s.tables.dramPending[key];
            var k' := EndHitCore(s.core, p.flash, p.slot);
            var tb' := s.tables.(dramPending := s.tables.dramPending - {key});
            && p.op == CacheReadOp && key == DAddr(p.slot, p.flash.off)
            && p.flash in s.core.ops && !s.core.ops[p.flash].miss && s.core.ops[p.flash].slot == p.slot
            && s.core.ops[p.flash].txn == p.txn
            && DramReadCallback(c, s, key, value)
               == Fine(Ctl(k', tb', Woken(s.front), Reported(s.out, false, p.txn, value, false)))
            && Locked(c, k', tb', active)
  {
    hide Locked, EndHitCore, Release, PageOf;
    DramEntryFacts(c, s.core, s.tables, key, active);
    EndHitLocked(c, s.core, s.tables, key, active);
  }

  lemma VictimPart(c: Config, s: Ctl, key: DAddr, value: int, active: set<Addr>)
    requires Good(c) && Locked(c, s.core, s.tables, active)
    requires key.slot in s.tables.dramWait && s.tables.dramWait[key.slot] - {key.off} != {}
    ensures key.slot in s.tables.dramGot
    ensures var tb' := s.tables.(dramWait := s.tables.dramWait[key.slot := s.tables.dramWait[key.slot] - {key.off}],
                                 dramGot := s.tables.dramGot[key.slot :=
                                     Gather(s.tables.dramGot[key.slot], key.off, value)]);
            && DramReadCallback(c, s, key, value) == Fine(s.(tables := tb'))
            && Locked(c, s.core, tb', active)
  {
    hide Held, Counted, Lines, FlashTable, DramTable, PageOf, SetOf, NumSets, Sound;
    VictimEntryFacts(c, s.core, s.tables, key.slot, active);
    var tb := s.tables;
    var at := DAddr(key.slot, 0);
    DramWaitLess(c, s.core.ops, tb.dramPending, tb.dramWait, key.slot, tb.dramWait[key.slot] - {key.off});
    assert (tb.dramPending - {at})[at := tb.dramPending[at]] == tb.dramPending;
  }

  ghost function VictimOut(c: Config, o: Out, p: Pending, got: nat -> int): Out
    requires Good(c)
  {
    o.(flashQueue := o.flashQueue + ChunkWrites(PageOf(c, p.victimTag, p.slot.set_), Chunks(c), got))
  }

  lemma VictimBack(c: Config, s: Ctl, key: DAddr, value: int, active: set<Addr>)
    requires Good(c) && Locked(c, s.core, s.tables, active)
    requires key.slot in s.tables.dramWait && s.tables.dramWait[key.slot] - {key.off} == {}
    ensures DAddr(key.slot, 0) in s.tables.dramPending && key.slot in s.tables.dramGot
    ensures var p := s.tables.dramPending[DAddr(key.slot, 0)];
            var a := p.flash;
            && a in s.core.ops && s.core.ops[a].victimOut && PendingOf(s.core.ops[a], p)
            && var last := !s.core.ops[a].lineOut;
               var k' := if last then EndMissCore(c, s.core, a, LineIn(s.core.cache, key.slot))
                   else VictimCore(s.core, a);
               var tb' := VictimTables(s.tables, key.slot);
               && DramReadCallback(c, s, key, value)
                  == Fine(Ctl(k', tb', if last then Woken(s.front) else s.front,
                              VictimOut(c, s.out, p, Gather(s.tables.dramGot[key.slot], key.off, value))))
               && Locked(c, k', tb', active)
  {
    hide Locked, EndMissCore, Release, PageOf, SetOf, NumSets, Chunks, ChunkWrites;
    VictimEntryFacts(c, s.core, s.tables, key.slot, active);
    var p := s.tables.dramPending[DAddr(key.slot, 0)];
    var a := p.flash;
    assert p.slot == key.slot;
    LockedOpFacts(c, s.core, s.tables, a, active);
    var op := s.core.ops[a].(victimOut := false);
    var k := s.core;
    if k.ops[a].lineOut {
      VictimDoneLocked(c, k, s.tables, key.slot, active);
      assert VictimCore(k, a).pendingPages[a.page] == 1;
    } else {
      VictimLastLocked(c, k, s.tables, key.slot, active);
      EndMissRelease(c, k, a, op, LineIn(k.cache, key.slot));
      assert VictimCore(k, a) == k.(ops := k.ops[a := op], pendingPages := k.pendingPages[a.page := 0]);
      SameLine(k.cache, key.slot);
    }
  }

  lemma SameLine(cache: Cache, slot: Slot)
    ensures slot in cache ==> cache[slot := LineIn(cache, slot)] == cache
  {
  }

  lemma LockedOpFacts(c: Config, k: Core, tb: Tables, a: Addr, active: set<Addr>)
    requires Good(c) && Locked(c, k, tb, active) && a in k.ops
    ensures OpShape(c, a, k.ops[a]) && LineOf(c, k.cache, a, k.ops[a]) && a in k.pendingFlash
    ensures LineIn(k.cache, k.ops[a].slot).lockCount >= 1 && 1 <= CountIn(k.setCounter, k.ops[a].slot.set_) <= c.setSize
    ensures k.ops[a].miss ==> a.page in k.pendingPages && k.pendingPages[a.page] == Outstanding(k.ops[a])
    ensures k.ops[a].miss && k.ops[a].victimValid ==>
              VictimPage(c, k.ops[a]) in k.pendingPages && VictimPage(c, k.ops[a]) != a.page
  {
    hide Held, Counted, Lines, Tabled;
    OpFacts(c, k, a, active);
  }

  // Flash.

  lemma LinePart(c: Config, s: Ctl, key: FAddr, value: nat -> int, active: set<Addr>)
    requires Good(c) && Locked(c, s.core, s.tables, active)
    requires key.page in s.tables.flashPending && key.page in s.tables.flashWait
             && s.tables.flashWait[key.page] - {key.idx} != {}
    ensures key.page in s.tables.flashGot
    ensures var tb' := s.tables.(flashWait := s.tables.flashWait[key.page := s.tables.flashWait[key.page] - {key.idx}],
                                 flashGot := s.tables.flashGot[key.page :=
                                     GatherChunk(c, s.tables.flashGot[key.page], key.idx, value)]);
            && FlashReadCallback(c, s, key, value) == Fine(s.(tables := tb'))
            && Locked(c, s.core, tb', active)
  {
    hide Held, Counted, Lines, FlashTable, DramTable, PageOf, SetOf, NumSets, Sound, GatherChunk;
    FlashEntryFacts(c, s.core, s.tables, key.page, active);
    var tb := s.tables;
    FlashWaitLess(c, s.core.ops, tb.flashPending, tb.flashWait, key.page, tb.flashWait[key.page] - {key.idx});
    assert (tb.flashPending - {key.page})[key.page := tb.flashPending[key.page]] == tb.flashPending;
  }

  /** The refilled line; a write miss leaves it dirty. */
  ghost function FillLine(c: Config, k: Core, p: Pending, now: nat): Line
    requires Good(c)
  {
    Refilled(c, k, p, now).(dirty := p.txn.kind == DataWrite)
  }

  ghost function FillOut(c: Config, o: Out, p: Pending, got: nat -> int): Out
    requires Good(c)
  {
    var o1 := o.(dramQueue := o.dramQueue + PageWrites(p.slot, Bursts(c), Merged(p, got)));
    match p.txn.kind
    case DataRead => Reported(o1, false, p.txn, got(p.flash.off), p.callbackSent)
    case DataWrite => Reported(o1, true, p.txn, p.txn.data, p.callbackSent)
    case Prefetch => o1
  }

  /** The last part of the line: the line is retagged and the page is written to DRAM. */
  lemma LineArrives(c: Config, s: Ctl, key: FAddr, value: nat -> int, p: Pending, got: nat -> int)
    requires Good(c) && key.page in s.tables.flashPending && p == s.tables.flashPending[key.page]
    requires key.page in s.tables.flashWait && key.page in s.tables.flashGot
             && s.tables.flashWait[key.page] - {key.idx} == {}
    requires p.op == LineReadOp && p.flash.page == key.page && p.flash in s.core.ops && PageCount(s.core, key.page) >= 1
    requires p.slot == s.core.ops[p.flash].slot && got == GatherChunk(c, s.tables.flashGot[key.page], key.idx, value)
    ensures var s1 := Ctl(LineCore(s.core, p.flash, Refilled(c, s.core, p, s.front.now)),
            LineTables(s.tables, key.page), s.front,
                          s.out.(dramQueue := s.out.dramQueue + PageWrites(p.slot, Bursts(c), Merged(p, got))));
            FlashReadCallback(c, s, key, value) ==
            match p.txn.kind
            case DataRead => CacheReadFinish(c, s1, p, got(p.flash.off))
            case DataWrite => CacheWriteFinish(c, s1, p)
            case Prefetch => ContentionUnlock(s1, p.flash, p.victimValid, PageOf(c, p.victimTag, p.slot.set_), p.slot)
  {
    hide ContentionUnlock, CacheReadFinish, CacheWriteFinish, PageOf, SetOf, TagOf, NumSets, GatherChunk, Merged,
      PageWrites, Bursts;
  }

  /** The state in which the refilled miss reaches contention_unlock. */
  lemma LineReaches(c: Config, s: Ctl, key: FAddr, value: nat -> int, k1: Core)
    requires Good(c) && key.page in s.tables.flashPending && key.page in s.tables.flashWait
             && key.page in s.tables.flashGot
    requires s.tables.flashWait[key.page] - {key.idx} == {}
    requires var p := s.tables.flashPending[key.page];
             && p.op == LineReadOp && p.flash.page == key.page && p.flash in s.core.ops
                && PageCount(s.core, key.page) >= 1
             && p.slot == s.core.ops[p.flash].slot
             && (p.txn.kind != Prefetch && !p.callbackSent ==> p.txn.addr in s.out.logMap)
             && k1 == LineCore(s.core, p.flash, FillLine(c, s.core, p, s.front.now))
    ensures var p := s.tables.flashPending[key.page];
            FlashReadCallback(c, s, key, value)
            == ContentionUnlock(Ctl(k1, LineTables(s.tables, key.page), s.front,
                                    FillOut(c, s.out, p, GatherChunk(c, s.tables.flashGot[key.page], key.idx, value))),
                                p.flash, p.victimValid, PageOf(c, p.victimTag, p.slot.set_), p.slot)
  {
    hide FlashReadCallback, ContentionUnlock, PageOf, SetOf, TagOf, NumSets, GatherChunk, Merged, PageWrites, Bursts,
      LineTables;
    var p := s.tables.flashPending[key.page];
    LineArrives(c, s, key, value, p, GatherChunk(c, s.tables.flashGot[key.page], key.idx, value));
    if p.txn.kind == DataWrite {
      var l := Refilled(c, s.core, p, s.front.now);
      assert s.core.cache[p.slot := l][p.slot := l.(dirty := true)] == s.core.cache[p.slot := l.(dirty := true)];
    }
  }

  lemma LineBack(c: Config, s: Ctl, key: FAddr, value: nat -> int, active: set<Addr>)
    requires Good(c) && Locked(c, s.core, s.tables, active)
    requires key.page in s.tables.flashPending && key.page in s.tables.flashWait
             && s.tables.flashWait[key.page] - {key.idx} == {}
    requires var p := s.tables.flashPending[key.page];
             p.txn.kind != Prefetch && !p.callbackSent ==> p.txn.addr in s.out.logMap
    ensures key.page in s.tables.flashGot
    ensures var p := s.tables.flashPending[key.page];
            var a := p.flash;
            && a.page == key.page && a in s.core.ops && s.core.ops[a].lineOut && PendingOf(s.core.ops[a], p)
            && p.callbackSent == s.core.ops[a].sent
            && var last := !s.core.ops[a].victimOut;
               var l := FillLine(c, s.core, p, s.front.now);
               var k' := if last then EndMissCore(c, s.core, a, l) else LineCore(s.core, a, l);
               var tb' := LineTables(s.tables, key.page);
               && FlashReadCallback(c, s, key, value)
                  == Fine(Ctl(k', tb', if last then Woken(s.front) else s.front,
                              FillOut(c, s.out, p, GatherChunk(c, s.tables.flashGot[key.page], key.idx, value))))
               && Locked(c, k', tb', active)
  {
    hide Locked, EndMissCore, Release, PageOf, SetOf, TagOf, NumSets, FillOut, FlashReadCallback, GatherChunk;
    FlashEntryFacts(c, s.core, s.tables, key.page, active);
    var p := s.tables.flashPending[key.page];
    var a := p.flash;
    var k := s.core;
    LockedOpFacts(c, k, s.tables, a, active);
    var op := k.ops[a].(lineOut := false);
    var l := FillLine(c, k, p, s.front.now);
    var k1 := LineCore(k, a, l);
    LineReaches(c, s, key, value, k1);
    if k.ops[a].victimOut {
      LineDoneLocked(c, k, s.tables, key.page, l, active);
      assert k1.pendingPages[a.page] == 1;
    } else {
      LineLastLocked(c, k, s.tables, key.page, l, active);
      EndMissRelease(c, k, a, op, l);
      assert k1 == k.(cache := k.cache[op.slot := l], ops := k.ops[a := op],
          pendingPages := k.pendingPages[a.page := 0]);
    }
  }

  ghost function SentCore(k: Core, a: Addr): Core
    requires a in k.ops
  {
    k.(ops := k.ops[a := k.ops[a].(sent := true)])
  }

  lemma CriticalLine(c: Config, s: Ctl, page: nat, value: int, active: set<Addr>)
    requires Good(c) && Locked(c, s.core, s.tables, active)
    requires page in s.tables.flashPending && !s.tables.flashPending[page].callbackSent
    requires var p := s.tables.flashPending[page]; p.txn.kind != Prefetch ==> p.txn.addr in s.out.logMap
    ensures var p := s.tables.flashPending[page];
            && p.flash in s.core.ops && s.core.ops[p.flash].lineOut && !s.core.ops[p.flash].sent
               && PendingOf(s.core.ops[p.flash], p)
            && var k' := SentCore(s.core, p.flash);
               var tb' := s.tables.(flashPending := s.tables.flashPending[page := p.(callbackSent := true)]);
               var o' := match p.txn.kind
                         case DataRead => Reported(s.out, false, p.txn, value, false)
                         case DataWrite => Reported(s.out, true, p.txn, p.txn.data, false)
                         case Prefetch => s.out;
               && FlashCriticalLineCallback(s, page, value) == Fine(Ctl(k', tb', s.front, o'))
               && Locked(c, k', tb', active)
  {
    hide Held, Counted, Lines, FlashTable, DramTable, PageOf, SetOf, NumSets;
    FlashEntryFacts(c, s.core, s.tables, page, active);
    var p := s.tables.flashPending[page];
    var a := p.flash;
    var k := s.core;
    LockedOpFacts(c, k, s.tables, a, active);
    var op := k.ops[a].(sent := true);
    HeldProgress(c, k, a, op, active);
    assert k.pendingPages[a.page := Outstanding(op)] == k.pendingPages;
    LinesFlags(c, k.cache, k.ops, a, op);
    FlashSent(c, k.ops, s.tables.flashPending, s.tables.flashWait, page);
    DramFlags(c, k.ops, s.tables.dramPending, s.tables.dramWait, a, op);
  }
}
