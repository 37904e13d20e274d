/**
 The cache controller and its access logger as the objects they are: fields updated in place by
 methods with loops.  Each method is proved to do what the corresponding function of
 HybridController says; `ok` is false where the source would assert or abort.
 */
module HybridSystems {
  import opened Arithmetic
  import opened Basics
  import opened HybridGeometry
  import opened InOrderMemory
  import opened HybridController
  import opened HybridLocks

  /** access_start, access_process and access_stop. */
  class Logger {
    var accessQueue: seq<nat>
    var accessMap: set<nat>

    constructor ()
      ensures accessQueue == [] && accessMap == {}
    {
      accessQueue, accessMap := [], {};
    }

    method AccessStart(addr: nat)
      modifies this
      ensures accessQueue == old(accessQueue) + [addr] && accessMap == old(accessMap)
    {
      accessQueue := accessQueue + [addr];
    }

    /** Moves the first entry of the address from the queue to the map. */
    method AccessProcess(addr: nat) returns (ok: bool)
      modifies this
      ensures ok <==> IndexOf(old(accessQueue), addr) < |old(accessQueue)| && addr !in old(accessMap)
      ensures ok ==>
              accessQueue == Without(old(accessQueue), IndexOf(old(accessQueue), addr))
              && accessMap == old(accessMap) + {addr}
    {
      var i := 0;
      while i < |accessQueue| && accessQueue[i] != addr
        invariant 0 <= i <= |accessQueue|
        invariant forall j :: 0 <= j < i ==> accessQueue[j] != addr
      {
        i := i + 1;
      }
      assert i == IndexOf(accessQueue, addr);
      if i == |accessQueue| { return false; }
      accessQueue := Without(accessQueue, i);
      if addr in accessMap { return false; }
      accessMap := accessMap + {addr};
      return true;
    }

    method AccessStop(addr: nat) returns (ok: bool)
      modifies this
      ensures ok <==> addr in old(accessMap)
      ensures accessQueue == old(accessQueue) && (ok ==> accessMap == old(accessMap) - {addr})
    {
      ok := addr in accessMap;
      accessMap := accessMap - {addr};
    }
  }

  /** Every line of the table is one of the first CACHE_PAGES pages of the DRAM. */
  lemma SlotFilled(c: Config, slot: Slot)
    requires Good(c) && IsSlot(c, slot)
    ensures var p := PageOf(c, slot.way, slot.set_);
            p < c.cachePages && SetOf(c, p) == slot.set_ && TagOf(c, p) == slot.way
  {
    PageJoin(c, slot.way, slot.set_);
    RowBelow(slot.way, c.setSize, NumSets(c));
    WholeRows(c.cachePages, c.setSize);
  }

  /** The table that restoreCacheTable fills in. */
  ghost predicate Prefilled(c: Config, cache: Cache, dirty: bool)
    requires Good(c)
  {
    forall slot :: IsSlot(c, slot) ==> slot in cache && cache[slot] == Line(true, dirty, false, 0, slot.way, 0)
  }

  /** A prefilled table is a legal start: no line is held and no tag is there twice. */
  lemma PrefilledUnheld(c: Config, cache: Cache, dirty: bool)
    requires Good(c) && Prefilled(c, cache, dirty)
    ensures Unheld(c, cache)
  {
  }

  /** The tag store and lock tables, the pending tables and the front end are kept as records. */
  class HybridSystem {
    const c: Config
    const log: Logger
    var core: Core
    var tables: Tables
    var front: Front
    var dramQueue: seq<Req<DAddr, int>>
    var flashQueue: seq<Req<FAddr, nat -> int>>
    var done: seq<Completion>

    ghost function OutOf(): Out reads this, log { Out(dramQueue, flashQueue, done, log.accessQueue, log.accessMap) }

    ghost function State(): Ctl reads this, log { Ctl(core, tables, front, OutOf()) }

    /** An empty table, or one prefilled with the first pages of the flash. */
    constructor (c: Config, prefill: bool, dirty: bool)
      requires Good(c)
      ensures this.c == c && fresh(log)
      ensures State() == Ctl(Core(core.cache, {}, map[], map[], map[], map[]),
              Tables(map[], map[], map[], map[], map[], map[]),
                             Front([], None, 0, true, 0, 0), Out([], [], [], [], {}))
      ensures !prefill ==> core.cache == map[]
      ensures prefill ==> Prefilled(c, core.cache, dirty)
    {
      this.c := c;
      log := new Logger();
      core := Core(map[], {}, map[], map[], map[], map[]);
      tables := Tables(map[], map[], map[], map[], map[], map[]);
      front := Front([], None, 0, true, 0, 0);
      dramQueue, flashQueue, done := [], [], [];
      new;
      if prefill {
        var cache := RestoreCacheTable(c, dirty);
        core := core.(cache := cache);
      }
    }

    static method RestoreCacheTable(c: Config, dirty: bool) returns (cache: map<Slot, Line>)
      requires Good(c)
      ensures Prefilled(c, cache, dirty)
    {
      cache := map[];
      for i := 0 to c.cachePages
        invariant forall slot :: slot in cache ==> cache[slot] == Line(true, dirty, false, 0, slot.way, 0)
        invariant forall j :: 0 <= j < i ==> Slot(SetOf(c, j), TagOf(c, j)) in cache
      {
        cache := cache[Slot(SetOf(c, i), TagOf(c, i)) := Line(true, dirty, false, 0, TagOf(c, i), 0)];
      }
      forall slot | IsSlot(c, slot) ensures slot in cache {
        SlotFilled(c, slot);
        assert Slot(SetOf(c, PageOf(c, slot.way, slot.set_)), TagOf(c, PageOf(c, slot.way, slot.set_))) in cache;
      }
    }

    // Contention.

    method ContentionIsUnlocked(a: Addr) returns (r: bool)
      requires Good(c)
      ensures r == IsUnlocked(c, core, a)
    {
      var set_ := SetOf(c, a.page);
      if set_ in core.setCounter {
        if core.setCounter[set_] == c.setSize { return false; }
      }
      return a.page !in core.pendingPages && a !in core.pendingFlash;
    }

    method ContentionCacheLineLock(slot: Slot)
      modifies `core
      ensures core == CacheLineLock(old(core), slot)
    {
      var l := LineIn(core.cache, slot);
      core := core.(cache := core.cache[slot := l.(locked := true, lockCount := l.lockCount + 1)]);
      if slot.set_ !in core.setCounter {
        core := core.(setCounter := core.setCounter[slot.set_ := 1]);
      } else {
        core := core.(setCounter := core.setCounter[slot.set_ := core.setCounter[slot.set_] + 1]);
      }
    }

    method ContentionCacheLineUnlock(slot: Slot) returns (ok: bool)
      modifies `core
      ensures ok <==> CacheLineUnlock(old(core), slot).Fine?
      ensures ok ==> core == CacheLineUnlock(old(core), slot).value
    {
      var l := LineIn(core.cache, slot);
      var n := l.lockCount - 1;
      if n < 0 || slot.set_ !in core.setCounter || core.setCounter[slot.set_] < 1 { return false; }
      core := core.(cache := core.cache[slot := l.(lockCount := n, locked := l.locked && n != 0)]);
      core := core.(setCounter := core.setCounter[slot.set_ := core.setCounter[slot.set_] - 1]);
      return true;
    }

    /** The releasing branches of contention_unlock. */
    method Release(a: Addr, victimValid: bool, victimPage: nat, slot: Slot) returns (ok: bool)
      modifies `core
      ensures ok <==> HybridController.Release(old(core), a, victimValid, victimPage, slot).Fine?
      ensures ok ==> core == HybridController.Release(old(core), a, victimValid, victimPage, slot).value
    {
      if a.page !in core.pendingPages {
        if a !in core.pendingFlash || victimValid { return false; }
      } else {
        core := core.(pendingPages := core.pendingPages - {a.page}, owner := core.owner - {a.page});
        if a !in core.pendingFlash { return false; }
        if victimValid {
          if victimPage !in core.pendingPages { return false; }
          core := core.(pendingPages := core.pendingPages - {victimPage}, owner := core.owner - {victimPage});
        }
        ghost var gone := {a.page} + if victimValid then {victimPage} else {};
        assert core.pendingPages == old(core).pendingPages - gone && core.owner == old(core).owner - gone;
      }
      core := core.(pendingFlash := core.pendingFlash - {a}, ops := core.ops - {a});
      ok := ContentionCacheLineUnlock(slot);
    }

    method ContentionUnlock(a: Addr, victimValid: bool, victimPage: nat, slot: Slot) returns (ok: bool)
      modifies `core, `front
      ensures ok <==> HybridController.ContentionUnlock(old(State()), a, victimValid, victimPage, slot).Fine?
      ensures ok ==> State() == HybridController.ContentionUnlock(old(State()), a, victimValid, victimPage, slot).value
    {
      hide HybridController.Release;
      if a.page in core.pendingPages && core.pendingPages[a.page] != 0 { return true; }
      ok := Release(a, victimValid, victimPage, slot);
      if ok { front := front.(checkQueue := true, pendingCount := front.pendingCount - 1); }
    }

    // Callbacks to the requester.

    method DoneCallback(isWrite: bool, txn: Txn, value: int) returns (ok: bool)
      modifies `done, log
      ensures ok <==> Complete(old(OutOf()), isWrite, txn, value).Fine?
      ensures ok ==> OutOf() == Complete(old(OutOf()), isWrite, txn, value).value
    {
      done := done + [Completion(isWrite, txn.id, CallbackAddr(txn.addr), value)];
      ok := log.AccessStop(txn.addr);
    }

    // Hits.

    method CacheRead(txn: Txn, a: Addr, slot: Slot) returns (ok: bool)
      modifies `core, `tables, `dramQueue
      ensures ok <==> HybridController.CacheRead(old(State()), txn, a, slot).Fine?
      ensures ok ==> State() == HybridController.CacheRead(old(State()), txn, a, slot).value
    {
      var key := DAddr(slot, a.off);
      dramQueue := dramQueue + [Rd(key)];
      core := core.(cache := core.cache[slot := LineIn(core.cache, slot).(ts := front.now)]);
      if key in tables.dramPending { return false; }
      tables := tables.(dramPending := tables.dramPending[key := Pending(CacheReadOp, txn, a, slot, 0, false, false)]);
      return true;
    }

    method CacheReadFinish(p: Pending, value: int) returns (ok: bool)
      requires Good(c)
      modifies `core, `front, `done, log
      ensures ok <==> HybridController.CacheReadFinish(c, old(State()), p, value).Fine?
      ensures ok ==> State() == HybridController.CacheReadFinish(c, old(State()), p, value).value
    {
      hide HybridController.ContentionUnlock, PageOf;
      ok := true;
      if !p.callbackSent { ok := DoneCallback(false, p.txn, value); }
      if ok { ok := ContentionUnlock(p.flash, p.victimValid, PageOf(c, p.victimTag, p.slot.set_), p.slot); }
    }

    method CacheWriteFinish(p: Pending) returns (ok: bool)
      requires Good(c)
      modifies `core, `front, `done, log
      ensures ok <==> HybridController.CacheWriteFinish(c, old(State()), p).Fine?
      ensures ok ==> State() == HybridController.CacheWriteFinish(c, old(State()), p).value
    {
      hide HybridController.ContentionUnlock, PageOf;
      core := core.(cache := core.cache[p.slot := LineIn(core.cache, p.slot).(dirty := true, valid := true,
          ts := front.now)]);
      ok := true;
      if !p.callbackSent { ok := DoneCallback(true, p.txn, p.txn.data); }
      if ok { ok := ContentionUnlock(p.flash, p.victimValid, PageOf(c, p.victimTag, p.slot.set_), p.slot); }
    }

    method CacheWrite(txn: Txn, a: Addr, slot: Slot) returns (ok: bool)
      requires Good(c)
      modifies `core, `front, `dramQueue, `done, log
      ensures ok <==> HybridController.CacheWrite(c, old(State()), txn, a, slot).Fine?
      ensures ok ==> State() == HybridController.CacheWrite(c, old(State()), txn, a, slot).value
    {
      hide HybridController.CacheWriteFinish;
      dramQueue := dramQueue + [Wr(DAddr(slot, a.off), txn.data)];
      ok := CacheWriteFinish(Pending(CacheReadOp, txn, a, slot, 0, false, false));
    }

    // Page transfers.

    /** Schedules reads for the whole page; `wait` holds the parts to come. */
    method ReadChunks(page: nat) returns (wait: set<nat>)
      requires Good(c)
      modifies `flashQueue
      ensures wait == UpTo(Chunks(c)) && flashQueue == old(flashQueue) + ChunkReads(page, Chunks(c))
    {
      wait := {};
      for i := 0 to Chunks(c)
        invariant wait == UpTo(i) && flashQueue == old(flashQueue) + ChunkReads(page, i)
      {
        wait := wait + {i};
        flashQueue := flashQueue + [Rd(FAddr(page, i))];
        assert ChunkReads(page, i + 1) == ChunkReads(page, i) + [Rd(FAddr(page, i))];
      }
    }

    method ReadBursts(slot: Slot) returns (wait: set<nat>)
      requires Good(c)
      modifies `dramQueue
      ensures wait == UpTo(Bursts(c)) && dramQueue == old(dramQueue) + PageReads(slot, Bursts(c))
    {
      wait := {};
      for i := 0 to Bursts(c)
        invariant wait == UpTo(i) && dramQueue == old(dramQueue) + PageReads(slot, i)
      {
        wait := wait + {i};
        dramQueue := dramQueue + [Rd(DAddr(slot, i))];
        assert PageReads(slot, i + 1) == PageReads(slot, i) + [Rd(DAddr(slot, i))];
      }
    }

    method ContentionIncrement(page: nat)
      modifies `core
      ensures core == Increment(old(core), page)
    {
      core := core.(pendingPages := core.pendingPages[page :=
          (if page in core.pendingPages then core.pendingPages[page] else 0) + 1]);
    }

    method ContentionDecrement(page: nat) returns (ok: bool)
      modifies `core
      ensures ok <==> Decrement(old(core), page).Fine?
      ensures ok ==> core == Decrement(old(core), page).value
    {
      if page !in core.pendingPages || core.pendingPages[page] < 1 { return false; }
      core := core.(pendingPages := core.pendingPages[page := core.pendingPages[page] - 1]);
      return true;
    }

    method LineRead(p: Pending)
      requires Good(c)
      modifies `core, `tables, `flashQueue
      ensures State() == HybridController.LineRead(c, old(State()), p)
    {
      hide Chunks, UpTo, ChunkReads, Increment;
      var page := p.flash.page;
      ContentionIncrement(page);
      var wait := ReadChunks(page);
      tables := tables.(flashWait := tables.flashWait[page := wait], flashGot := tables.flashGot[page := NOTHING]);
      tables := tables.(flashPending := tables.flashPending[page := p.(op := LineReadOp)]);
    }

    method VictimRead(p: Pending) returns (ok: bool)
      requires Good(c)
      modifies `core, `tables, `dramQueue
      ensures ok <==> HybridController.VictimRead(c, old(State()), p).Fine?
      ensures ok ==> State() == HybridController.VictimRead(c, old(State()), p).value
    {
      hide Bursts, UpTo, PageReads, Increment;
      ContentionIncrement(p.flash.page);
      var wait := ReadBursts(p.slot);
      tables := tables.(dramWait := tables.dramWait[p.slot := wait], dramGot := tables.dramGot[p.slot := NOTHING]);
      if DAddr(p.slot, 0) in tables.dramPending { return false; }
      tables := tables.(dramPending := tables.dramPending[DAddr(p.slot, 0) := p.(op := VictimReadOp)]);
      return true;
    }

    method VictimWrite(p: Pending, got: nat -> int)
      requires Good(c)
      modifies `flashQueue
      ensures flashQueue == old(flashQueue) + ChunkWrites(PageOf(c, p.victimTag, SetOf(c, p.flash.page)), Chunks(c),
              got)
    {
      var page := PageOf(c, p.victimTag, SetOf(c, p.flash.page));
      for i := 0 to Chunks(c)
        invariant flashQueue == old(flashQueue) + ChunkWrites(page, i, got)
      {
        flashQueue := flashQueue + [Wr(FAddr(page, i), got)];
        assert ChunkWrites(page, i + 1, got) == ChunkWrites(page, i, got) + [Wr(FAddr(page, i), got)];
      }
    }

    method LineWrite(p: Pending, content: nat -> int)
      requires Good(c)
      modifies `dramQueue
      ensures dramQueue == old(dramQueue) + PageWrites(p.slot, Bursts(c), content)
    {
      for i := 0 to Bursts(c)
        invariant dramQueue == old(dramQueue) + PageWrites(p.slot, i, content)
      {
        dramQueue := dramQueue + [Wr(DAddr(p.slot, i), content(i))];
        assert PageWrites(p.slot, i + 1, content) == PageWrites(p.slot, i, content)
            + [Wr(DAddr(p.slot, i), content(i))];
      }
    }

    // Lookups.

    /** The search of the set: the first way that holds the tag, or setSize. */
    method FindHit(set_: nat, tag: nat) returns (w: nat)
      ensures w == HitWay(c, core.cache, set_, tag, 0)
    {
      w := 0;
      while w < c.setSize
        invariant w <= c.setSize && HitWay(c, core.cache, set_, tag, 0) == HitWay(c, core.cache, set_, tag, w)
      {
        var l := LineIn(core.cache, Slot(set_, w));
        if l.valid && l.tag == tag { return; }
        w := w + 1;
      }
    }

    /** The scan for the least recently used unlocked way; way 0 if every way is locked. */
    method FindVictim(set_: nat) returns (slot: Slot)
      requires c.setSize > 0
      ensures slot == MissSlot(c, core.cache, set_)
    {
      var victim, minTs, minInit := 0, 0, false;
      for i := 0 to c.setSize
        invariant !minInit ==> VictimWay(c, core.cache, set_, i) == c.setSize && victim == 0
        invariant minInit ==>
                  VictimWay(c, core.cache, set_, i) == victim < i && minTs == LineIn(core.cache, Slot(set_, victim)).ts
      {
        var l := LineIn(core.cache, Slot(set_, i));
        if (l.ts < minTs || !minInit) && !l.locked {
          victim, minTs, minInit := i, l.ts, true;
        }
      }
      slot := Slot(set_, victim);
    }

    method ProcessHit(t: Txn, a: Addr, slot: Slot) returns (ok: bool)
      requires Good(c)
      modifies this, log
      ensures ok <==> HybridController.ProcessHit(c, old(State()), t, a, slot).Fine?
      ensures ok ==> State() == HybridController.ProcessHit(c, old(State()), t, a, slot).value
    {
      hide HybridController.CacheRead, HybridController.CacheWrite, HybridController.ContentionUnlock;
      ContentionCacheLineLock(slot);
      core := core.(ops := core.ops[a := HitOp(t, slot)]);
      match t.kind
      case DataRead => ok := CacheRead(t, a, slot);
      case DataWrite => ok := CacheWrite(t, a, slot);
      case Prefetch => ok := ContentionUnlock(a, false, 0, slot);
    }

    method LockMissed(t: Txn, a: Addr) returns (slot: Slot, l: Line)
      requires Good(c)
      modifies `core
      ensures slot == MissSlot(c, old(core).cache, SetOf(c, a.page)) && l == LineIn(old(core).cache, slot)
      ensures core == LockMiss(c, old(core), t, a, slot)
    {
      hide PageOf, SetOf, VictimWay;
      core := core.(pendingPages := core.pendingPages[a.page := 0], owner := core.owner[a.page := a]);
      slot := FindVictim(SetOf(c, a.page));
      l := LineIn(core.cache, slot);
      core := core.(ops := core.ops[a := MissOp(t, slot, l)]);
      if l.valid {
        var victim := PageOf(c, l.tag, slot.set_);
        core := core.(pendingPages := core.pendingPages[victim := 0], owner := core.owner[victim := a]);
      }
      ContentionCacheLineLock(slot);
    }

    method ProcessMiss(t: Txn, a: Addr) returns (ok: bool)
      requires Good(c)
      modifies `core, `tables, `dramQueue, `flashQueue
      ensures ok <==> HybridController.ProcessMiss(c, old(State()), t, a).Fine?
      ensures ok ==> State() == HybridController.ProcessMiss(c, old(State()), t, a).value
    {
      hide LockMiss, HybridController.LineRead, HybridController.VictimRead, MissSlot, SetOf;
      var slot, l := LockMissed(t, a);
      var p := MissPending(t, a, slot, l);
      LineRead(p);
      ok := true;
      if l.dirty { ok := VictimRead(p); }
    }

    method ProcessTransaction(t: Txn) returns (ok: bool)
      requires Good(c)
      modifies this, log
      ensures ok <==> HybridController.ProcessTransaction(c, old(State()), t).Fine?
      ensures ok ==> State() == HybridController.ProcessTransaction(c, old(State()), t).value
    {
      hide HybridController.ProcessHit, HybridController.ProcessMiss, Align, SetOf, TagOf;
      var a := Align(c, t.addr);
      if a.page >= c.totalPages { return false; }
      var set_ := SetOf(c, a.page);
      var w := FindHit(set_, TagOf(c, a.page));
      if t.kind != Prefetch {
        ok := log.AccessProcess(t.addr);
        if !ok { return; }
      }
      if w < c.setSize {
        ok := ProcessHit(t, a, Slot(set_, w));
      } else {
        ok := ProcessMiss(t, a);
      }
    }

    // Callbacks from the memories.

    method VictimReadFinish(off: nat, value: int, p: Pending) returns (ok: bool)
      requires Good(c)
      modifies `core, `tables, `front, `flashQueue
      ensures ok <==> HybridController.VictimReadFinish(c, old(State()), off, value, p).Fine?
      ensures ok ==> State() == HybridController.VictimReadFinish(c, old(State()), off, value, p).value
    {
      hide HybridController.ContentionUnlock, Flagged, Decrement, Gather, ChunkWrites, Chunks, PageOf, SetOf;
      if p.slot !in tables.dramWait || p.slot !in tables.dramGot { return false; }
      var wait := tables.dramWait[p.slot] - {off};
      var got := Gather(tables.dramGot[p.slot], off, value);
      if wait != {} {
        tables := tables.(dramWait := tables.dramWait[p.slot := wait], dramGot := tables.dramGot[p.slot := got],
                          dramPending := tables.dramPending[DAddr(p.slot, 0) := p]);
        return true;
      }
      tables := tables.(dramWait := tables.dramWait - {p.slot}, dramGot := tables.dramGot - {p.slot});
      core := Flagged(core, p.flash, true, false, false);
      ok := ContentionDecrement(p.flash.page);
      if !ok { return; }
      ok := ContentionUnlock(p.flash, p.victimValid, PageOf(c, p.victimTag, p.slot.set_), p.slot);
      if ok { VictimWrite(p, got); }
    }

    method DramReadCallback(key: DAddr, value: int) returns (ok: bool)
      requires Good(c)
      modifies this, log
      ensures ok <==> HybridController.DramReadCallback(c, old(State()), key, value).Fine?
      ensures ok ==> State() == HybridController.DramReadCallback(c, old(State()), key, value).value
    {
      hide HybridController.VictimReadFinish, HybridController.CacheReadFinish;
      var at := if key.slot in tables.dramWait then DAddr(key.slot, 0) else key;
      if at !in tables.dramPending { return false; }
      var p := tables.dramPending[at];
      tables := tables.(dramPending := tables.dramPending - {at});
      match p.op
      case VictimReadOp => ok := VictimReadFinish(key.off, value, p);
      case CacheReadOp => ok := CacheReadFinish(p, value);
      case LineReadOp => return false;
    }

    method LineReadFinish(idx: nat, value: nat -> int, p: Pending) returns (ok: bool)
      requires Good(c)
      modifies this, log
      ensures ok <==> HybridController.LineReadFinish(c, old(State()), idx, value, p).Fine?
      ensures ok ==> State() == HybridController.LineReadFinish(c, old(State()), idx, value, p).value
    {
      hide HybridController.ContentionUnlock, HybridController.CacheReadFinish, HybridController.CacheWriteFinish,
        Flagged, Decrement, GatherChunk, PageWrites, Bursts, PageOf, TagOf, Merged;
      var page := p.flash.page;
      if page !in tables.flashWait || page !in tables.flashGot { return false; }
      var wait := tables.flashWait[page] - {idx};
      var got := GatherChunk(c, tables.flashGot[page], idx, value);
      if wait != {} {
        tables := tables.(flashWait := tables.flashWait[page := wait], flashGot := tables.flashGot[page := got],
                          flashPending := tables.flashPending[page := p]);
        return true;
      }
      tables := tables.(flashWait := tables.flashWait - {page}, flashGot := tables.flashGot - {page});
      core := Flagged(core, p.flash, false, true, false);
      ok := ContentionDecrement(page);
      if !ok { return; }
      core := core.(cache := core.cache[p.slot := Refilled(c, core, p, front.now)]);
      LineWrite(p, Merged(p, got));
      match p.txn.kind
      case DataRead => ok := CacheReadFinish(p, got(p.flash.off));
      case DataWrite => ok := CacheWriteFinish(p);
      case Prefetch => ok := ContentionUnlock(p.flash, p.victimValid, PageOf(c, p.victimTag, p.slot.set_), p.slot);
    }

    method FlashReadCallback(key: FAddr, value: nat -> int) returns (ok: bool)
      requires Good(c)
      modifies this, log
      ensures ok <==> HybridController.FlashReadCallback(c, old(State()), key, value).Fine?
      ensures ok ==> State() == HybridController.FlashReadCallback(c, old(State()), key, value).value
    {
      hide HybridController.LineReadFinish;
      if key.page !in tables.flashPending { return false; }
      var p := tables.flashPending[key.page];
      tables := tables.(flashPending := tables.flashPending - {key.page});
      if p.op != LineReadOp { return false; }
      ok := LineReadFinish(key.idx, value, p);
    }

    method FlashCriticalLineCallback(page: nat, value: int) returns (ok: bool)
      modifies this, log
      ensures ok <==> HybridController.FlashCriticalLineCallback(old(State()), page, value).Fine?
      ensures ok ==> State() == HybridController.FlashCriticalLineCallback(old(State()), page, value).value
    {
      hide Flagged, Complete;
      if page !in tables.flashPending { return false; }
      var p := tables.flashPending[page];
      if p.op != LineReadOp || p.callbackSent { return false; }
      ok := true;
      if p.txn.kind == DataRead {
        ok := DoneCallback(false, p.txn, value);
      } else if p.txn.kind == DataWrite {
        ok := DoneCallback(true, p.txn, p.txn.data);
      }
      if ok {
        tables := tables.(flashPending := tables.flashPending[page := p.(callbackSent := true)]);
        core := Flagged(core, p.flash, true, true, true);
      }
    }

    // The front end.

    method AddTransaction(isWrite: bool, addr: nat, id: nat, data: int)
      modifies `front, `done, log
      ensures State() == HybridController.AddTransaction(old(State()), isWrite, addr, id, data)
    {
      if InMmioHole(addr) {
        done := done + [Completion(isWrite, id, addr, data)];
        return;
      }
      var t := Txn(if isWrite then DataWrite else DataRead, Remap(addr), id, data);
      front := front.(pendingCount := front.pendingCount + 1, queue := front.queue + [t]);
      log.AccessStart(t.addr);
      front := front.(checkQueue := true);
    }

    method AddPrefetch(addr: nat)
      modifies `front
      ensures State() == HybridController.AddPrefetch(old(State()), addr)
    {
      front := front.(queue := [Txn(Prefetch, addr, 0, 0)] + front.queue);
      front := front.(pendingCount := front.pendingCount + 1);
      front := front.(checkQueue := true);
    }

    /** The scan for the first transaction that contention lets through. */
    method FindUnlocked() returns (i: nat)
      requires Good(c)
      ensures i == FirstUnlocked(c, core, front.queue, 0)
    {
      hide IsUnlocked, Align;
      i := 0;
      while i < |front.queue|
        invariant i <= |front.queue| && FirstUnlocked(c, core, front.queue, 0) == FirstUnlocked(c, core, front.queue, i)
      {
        var free := ContentionIsUnlocked(Align(c, front.queue[i].addr));
        if free { return; }
        i := i + 1;
      }
    }

    method ScanQueue()
      requires Good(c)
      modifies `core, `front
      ensures State() == HybridController.ScanQueue(c, old(State()))
    {
      hide FirstUnlocked, NumSets, Align;
      var sent := false;
      if |core.pendingPages| < NumSets(c) && front.checkQueue && front.delay == 0 {
        var i := FindUnlocked();
        if i < |front.queue| {
          var t := front.queue[i];
          core := core.(pendingFlash := core.pendingFlash + {Align(c, t.addr)});
          front := front.(active := Some(t), delay := c.controllerDelay, queue := Without(front.queue, i));
          sent := true;
        }
      }
      if !sent && front.delay == 0 { front := front.(checkQueue := false); }
    }

    /** One clock cycle; the flags say whether each memory takes the head of its queue. */
    method Update(dramTakes: bool, flashTakes: bool) returns (ok: bool)
      requires Good(c)
      modifies this, log
      ensures ok <==> HybridController.Update(c, old(State()), dramTakes, flashTakes).Fine?
      ensures ok ==> State() == HybridController.Update(c, old(State()), dramTakes, flashTakes).value
    {
      hide HybridController.ProcessTransaction, HybridController.ScanQueue, Send;
      ok := true;
      if front.active.Some? && front.delay == 0 {
        ok := ProcessTransaction(front.active.value);
        if !ok { return; }
        front := front.(active := None);
      }
      ScanQueue();
      SendRequests(dramTakes, flashTakes);
    }

    method SendRequests(dramTakes: bool, flashTakes: bool)
      modifies `front, `dramQueue, `flashQueue
      ensures State() == Send(old(State()), dramTakes, flashTakes)
    {
      if dramQueue != [] && dramTakes { dramQueue := dramQueue[1..]; }
      if flashQueue != [] && flashTakes { flashQueue := flashQueue[1..]; }
      front := front.(delay := if front.delay > 0 then front.delay - 1 else 0);
      front := front.(now := front.now + 1);
    }
  }
}
