/**
 What the timestamps of the cache lines mean.  A line is used when a read or write hits it and when its
 page arrives; its timestamp is the time of its last use, so the victim of a miss is the least recently
 used line that is not locked.
 */
module HybridRecency {
  import opened Basics
  import opened HybridGeometry
  import opened InOrderMemory
  import opened HybridController
  import opened HybridLocks
  import opened HybridLockSteps
  import opened HybridMissSteps
  import opened HybridLedger
  import opened HybridReads
  import opened HybridInvariant
  import opened HybridSteps
  import opened HybridProgress
  import opened HybridRuns

  // Timestamps, operation by operation.

  function Stamp(k: Core, slot: Slot): nat { LineIn(k.cache, slot).ts }

  /** No timestamp changes but that of the slot, if there is one. */
  ghost predicate Stamps(k: Core, k': Core, slot: Option<Slot>, now: nat) {
    forall x :: Stamp(k', x) == if slot == Some(x) then now else Stamp(k, x)
  }

  lemma LockStamps(k: Core, slot: Slot, now: nat)
    ensures Stamps(k, CacheLineLock(k, slot), None, now)
  {
  }

  lemma ReleaseStamps(k: Core, a: Addr, victimValid: bool, victimPage: nat, slot: Slot, now: nat)
    ensures var r := Release(k, a, victimValid, victimPage, slot); r.Fine? ==> Stamps(k, r.value, None, now)
  {
  }

  lemma UnlockStamps(s: Ctl, a: Addr, victimValid: bool, victimPage: nat, slot: Slot)
    ensures var r := ContentionUnlock(s, a, victimValid, victimPage, slot);
            r.Fine? ==> Stamps(s.core, r.value.core, None, s.front.now) && r.value.front.now == s.front.now
  {
    hide Release;
    ReleaseStamps(s.core, a, victimValid, victimPage, slot, s.front.now);
  }

  lemma ReadFinishStamps(c: Config, s: Ctl, p: Pending, value: int)
    requires Good(c)
    ensures var r := CacheReadFinish(c, s, p, value); r.Fine? ==> Stamps(s.core, r.value.core, None, s.front.now)
  {
    hide ContentionUnlock, Complete, PageOf;
    var o := if p.callbackSent then Fine(s.out) else Complete(s.out, false, p.txn, value);
    if o.Fine? {
      UnlockStamps(s.(out := o.value), p.flash, p.victimValid, PageOf(c, p.victimTag, p.slot.set_), p.slot);
    }
  }

  lemma WriteFinishStamps(c: Config, s: Ctl, p: Pending)
    requires Good(c)
    ensures var r := CacheWriteFinish(c, s, p); r.Fine? ==> Stamps(s.core, r.value.core, Some(p.slot), s.front.now)
  {
    hide ContentionUnlock, Complete, PageOf;
    var l := LineIn(s.core.cache, p.slot).(dirty := true, valid := true, ts := s.front.now);
    var o := if p.callbackSent then Fine(s.out) else Complete(s.out, true, p.txn, p.txn.data);
    if o.Fine? {
      UnlockStamps(s.(core := SetLine(s.core, p.slot, l), out := o.value), p.flash, p.victimValid,
                   PageOf(c, p.victimTag, p.slot.set_), p.slot);
    }
  }

  /** A hit uses its line, unless it is a prefetch. */
  lemma HitStamps(c: Config, s: Ctl, t: Txn, a: Addr, slot: Slot)
    requires Good(c)
    ensures var r := ProcessHit(c, s, t, a, slot);
            r.Fine? ==> Stamps(s.core, r.value.core, if t.kind == Prefetch then None else Some(slot), s.front.now)
  {
    hide ContentionUnlock, CacheWriteFinish, CacheLineLock;
    LockStamps(s.core, slot, s.front.now);
    var s1 := s.(core := CacheLineLock(s.core, slot).(ops := s.core.ops[a := HitOp(t, slot)]));
    if t.kind == DataWrite {
      WriteFinishStamps(c, s1.(out := s1.out.(dramQueue := s1.out.dramQueue + [Wr(DAddr(slot, a.off), t.data)])),
                        Pending(CacheReadOp, t, a, slot, 0, false, false));
    } else if t.kind == Prefetch {
      UnlockStamps(s1, a, false, 0, slot);
    }
  }

  lemma MissStamps(c: Config, s: Ctl, t: Txn, a: Addr)
    requires Good(c)
    ensures var r := ProcessMiss(c, s, t, a); r.Fine? ==> Stamps(s.core, r.value.core, None, s.front.now)
  {
    hide MissSlot, PageOf, SetOf, UpTo, ChunkReads, PageReads, Bursts, Chunks;
  }

  lemma VictimStamps(c: Config, s: Ctl, off: nat, value: int, p: Pending)
    requires Good(c)
    ensures var r := VictimReadFinish(c, s, off, value, p); r.Fine? ==> Stamps(s.core, r.value.core, None, s.front.now)
  {
    hide ContentionUnlock, PageOf, SetOf, ChunkWrites, Chunks, Gather;
    var t := s.tables;
    var k := Decrement(Flagged(s.core, p.flash, true, false, false), p.flash.page);
    if k.Fine? && p.slot in t.dramWait && p.slot in t.dramGot {
      var tb := t.(dramWait := t.dramWait - {p.slot}, dramGot := t.dramGot - {p.slot});
      UnlockStamps(s.(core := k.value, tables := tb), p.flash, p.victimValid, PageOf(c, p.victimTag, p.slot.set_),
          p.slot);
    }
  }

  lemma DramStamps(c: Config, s: Ctl, key: DAddr, value: int)
    requires Good(c)
    ensures var r := DramReadCallback(c, s, key, value); r.Fine? ==> Stamps(s.core, r.value.core, None, s.front.now)
  {
    hide VictimReadFinish, CacheReadFinish;
    var t := s.tables;
    var at := if key.slot in t.dramWait then DAddr(key.slot, 0) else key;
    if at in t.dramPending {
      var s1 := s.(tables := t.(dramPending := t.dramPending - {at}));
      VictimStamps(c, s1, key.off, value, t.dramPending[at]);
      ReadFinishStamps(c, s1, t.dramPending[at], value);
    }
  }

  /** The arrival of the last part of a page uses its line; an earlier part does not. */
  lemma LineStamps(c: Config, s: Ctl, idx: nat, value: nat -> int, p: Pending)
    requires Good(c) && p.flash.page in s.tables.flashWait
    ensures var r := LineReadFinish(c, s, idx, value, p);
            r.Fine? ==>
                Stamps(s.core, r.value.core, if s.tables.flashWait[p.flash.page] <= {idx} then Some(p.slot) else None,
                               s.front.now)
  {
    hide ContentionUnlock, CacheReadFinish, CacheWriteFinish, PageOf, TagOf, PageWrites, Merged, GatherChunk, Bursts;
    var t, page := s.tables, p.flash.page;
    var wait := t.flashWait[page] - {idx};
    assert wait == {} <==> t.flashWait[page] <= {idx};
    var k := Decrement(Flagged(s.core, p.flash, false, true, false), page);
    if wait == {} && k.Fine? && page in t.flashGot {
      var got := GatherChunk(c, t.flashGot[page], idx, value);
      var s1 := s.(core := SetLine(k.value, p.slot, Refilled(c, k.value, p, s.front.now)),
                   tables := t.(flashWait := t.flashWait - {page}, flashGot := t.flashGot - {page}),
                   out := s.out.(dramQueue := s.out.dramQueue + PageWrites(p.slot, Bursts(c), Merged(p, got))));
      ReadFinishStamps(c, s1, p, got(p.flash.off));
      WriteFinishStamps(c, s1, p);
      UnlockStamps(s1, p.flash, p.victimValid, PageOf(c, p.victimTag, p.slot.set_), p.slot);
    }
  }

  // Uses.

  /** The transaction that is looked up in this cycle, if any. */
  ghost predicate LooksUp(y: Sys, t: Txn) { y.ctl.front.active == Some(t) && y.ctl.front.delay == 0 }

  /** An event uses a line: a read or write hits it, or the last part of the page it waits for arrives. */
  ghost predicate Used(c: Config, y: Sys, e: Event, slot: Slot)
    requires Good(c)
  {
    match e
    case Ticks(_, _) =>
      && IsSlot(c, slot)
      && exists t :: LooksUp(y, t) && t.kind != Prefetch && Caches(c, y.ctl.core.cache, slot, Align(c, t.addr).page)
    case FlashServes(i) =>
      && i < |y.flash.q| && y.flash.q[i].Rd?
      && var key, tb := y.flash.q[i].key, y.ctl.tables;
         && key.page in tb.flashPending && key.page in tb.flashWait
         && tb.flashPending[key.page].slot == slot && tb.flashWait[key.page] <= {key.idx}
    case _ => false
  }

  /** When a line is used in the course of a run. */
  ghost function Uses(c: Config, y: Sys, es: seq<Event>, slot: Slot): seq<nat>
    requires Good(c)
    decreases |es|
  {
    if es == [] || !Enabled(c, y, es[0]) || Next(c, y, es[0]).Abort? then []
    else
      (if Used(c, y, es[0], slot) then [y.ctl.front.now] else []) + Uses(c, Next(c, y, es[0]).value, es[1..], slot)
  }

  /** When it was last used; a line never used keeps the timestamp it started with. */
  ghost function LastUse(c: Config, y: Sys, es: seq<Event>, slot: Slot): nat
    requires Good(c)
  {
    var uses := Uses(c, y, es, slot);
    if uses == [] then Stamp(y.ctl.core, slot) else uses[|uses| - 1]
  }

  /** A lookup uses the line that caches the page, and no other. */
  lemma LookupStamps(c: Config, s: Ctl, t: Txn, active: set<Addr>, slot: Slot)
    requires Good(c) && Locked(c, s.core, s.tables, active) && IsSlot(c, slot) && ProcessTransaction(c, s, t).Fine?
    ensures Stamp(ProcessTransaction(c, s, t).value.core, slot) ==
            if t.kind != Prefetch && Caches(c, s.core.cache, slot, Align(c, t.addr).page) then s.front.now
            else Stamp(s.core, slot)
  {
    hide Align, SetOf, TagOf, ProcessHit, ProcessMiss, LogProcess, Held, Counted, Tabled, NumSets;
    var a := Align(c, t.addr);
    var set_ := SetOf(c, a.page);
    var w := HitWay(c, s.core.cache, set_, TagOf(c, a.page), 0);
    HitFound(c, s.core.cache, a.page, w);
    var o := if t.kind == Prefetch then Fine(s.out) else LogProcess(s.out, t.addr);
    if o.Fine? {
      HitStamps(c, s.(out := o.value), t, a, Slot(set_, w));
      MissStamps(c, s.(out := o.value), t, a);
    }
  }

  lemma ScanStamps(c: Config, s: Ctl, slot: Slot)
    requires Good(c)
    ensures Stamp(ScanQueue(c, s).core, slot) == Stamp(s.core, slot)
  {
    hide Align, IsUnlocked, NumSets;
  }

  lemma TickStamps(c: Config, y: Sys, g: Aux, dramTakes: bool, flashTakes: bool, slot: Slot)
    requires Good(c) && Consistent(c, y, g) && IsSlot(c, slot) && Next(c, y, Ticks(dramTakes, flashTakes)).Fine?
    ensures var e := Ticks(dramTakes, flashTakes);
            Stamp(Next(c, y, e).value.ctl.core, slot) == if Used(c, y, e, slot) then y.ctl.front.now
                else Stamp(y.ctl.core, slot)
  {
    hide Locked, Accounted, Faithful, Awaited, Awake, Counting, ProcessTransaction, ScanQueue, Align, Caches, IsSlot,
      Taken;
    var f := y.ctl.front;
    if f.active.Some? && f.delay == 0 {
      var t := f.active.value;
      assert LooksUp(y, t);
      var s' := ProcessTransaction(c, y.ctl, t);
      if s'.Fine? {
        LookupStamps(c, y.ctl, t, ActiveAddr(c, f.active), slot);
        ScanStamps(c, s'.value.(front := s'.value.front.(active := None)), slot);
      }
    } else {
      ScanStamps(c, y.ctl, slot);
    }
  }

  lemma FlashServeStamps(c: Config, y: Sys, g: Aux, i: nat, slot: Slot)
    requires Good(c) && Consistent(c, y, g) && Enabled(c, y, FlashServes(i)) && Next(c, y, FlashServes(i)).Fine?
    ensures var e := FlashServes(i);
            Stamp(Next(c, y, e).value.ctl.core, slot) == if Used(c, y, e, slot) then y.ctl.front.now
                else Stamp(y.ctl.core, slot)
  {
    hide Locked, Accounted, Faithful, Awaited, Awake, Counting, LineReadFinish, Serve;
    var r, s := y.flash.q[i], y.ctl;
    if r.Rd? && r.key.page in s.tables.flashPending {
      FlashEntryFacts(c, s.core, s.tables, r.key.page, ActiveAddr(c, s.front.active));
      var s1 := s.(tables := s.tables.(flashPending := s.tables.flashPending - {r.key.page}));
      LineStamps(c, s1, r.key.idx, y.flash.mem(r.key), s.tables.flashPending[r.key.page]);
    }
  }

  /** Every step stamps the lines it uses with the time, and no others. */
  lemma StepStamps(c: Config, y: Sys, g: Aux, e: Event, slot: Slot)
    requires Good(c) && Consistent(c, y, g) && IsSlot(c, slot) && Enabled(c, y, e) && Next(c, y, e).Fine?
    ensures Stamp(Next(c, y, e).value.ctl.core, slot) == if Used(c, y, e, slot) then y.ctl.front.now
            else Stamp(y.ctl.core, slot)
  {
    hide Consistent, DramReadCallback, FlashReadCallback, Advance, Send, IsSlot, Align, CriticalEnabled, CriticalBurst;
    match e
    case Ticks(dramTakes, flashTakes) => TickStamps(c, y, g, dramTakes, flashTakes, slot);
    case FlashServes(i) => FlashServeStamps(c, y, g, i, slot);
    case DramServes(i) =>
      if y.dram.q[i].Rd? { DramStamps(c, y.ctl, y.dram.q[i].key, y.dram.mem(y.dram.q[i].key)); }
    case _ =>
  }

  lemma {:induction false} RunStamps(c: Config, y: Sys, g: Aux, es: seq<Event>, z: Sys, slot: Slot)
    requires Good(c) && Consistent(c, y, g) && Run(c, y, es, z) && IsSlot(c, slot)
    ensures Stamp(z.ctl.core, slot) == LastUse(c, y, es, slot)
    decreases |es|
  {
    hide Consistent, Next, Enabled, Used, IsSlot, Stamp;
    if es != [] {
      var y1, g1 := StepSafe(c, y, g, es[0]);
      StepStamps(c, y, g, es[0], slot);
      RunStamps(c, y1, g1, es[1..], z, slot);
    }
  }

  // The theorems.

  /** In every reachable state a timestamp is the time of the last use. */
  lemma StampIsLastUse(c: Config, start: Sys, es: seq<Event>, y: Sys, slot: Slot)
    requires Good(c) && Reaches(c, start, es, y) && IsSlot(c, slot)
    ensures LineIn(y.ctl.core.cache, slot).ts == LastUse(c, start, es, slot)
  {
    hide Consistent, Starts, Run, IsSlot, LastUse;
    var g := StartConsistent(c, start);
    RunStamps(c, start, g, es, y, slot);
  }

  /**
   A lookup that misses always finds an unlocked line, which no transaction works on, and evicts one such
   that no unlocked line of the set was last used earlier.
   */
  lemma EvictsLeastRecent(c: Config, start: Sys, es: seq<Event>, y: Sys, t: Txn)
    requires Good(c) && Reaches(c, start, es, y) && y.ctl.front.active == Some(t)
    requires Absent(c, y.ctl.core.cache, Align(c, t.addr).page)
    ensures var cache, set_ := y.ctl.core.cache, SetOf(c, Align(c, t.addr).page);
            var slot := MissSlot(c, cache, set_);
            && IsSlot(c, slot) && slot.set_ == set_ && !LineIn(cache, slot).locked
            && (forall w :: 0 <= w < c.setSize && !LineIn(cache, Slot(set_, w)).locked ==>
                  LastUse(c, start, es, slot) <= LastUse(c, start, es, Slot(set_, w)))
            && (forall a :: a in y.ctl.core.ops ==> y.ctl.core.ops[a].slot != slot)
  {
    hide Run, Held, Tabled, Faithful, Accounted, Align, Starts, Awake, SumLocks, SetOf, Absent, Lines, SetCounted,
      Awaited, LastUse;
    var g := Reached(c, start, es, y);
    var a := Align(c, t.addr);
    var k := y.ctl.core;
    assert a in {a};
    PageSplit(c, a.page);
    VictimExists(c, k, SetOf(c, a.page), {a});
    MissFacts(c, k, y.ctl.tables, t, a);
    StampIsLastUse(c, start, es, y, MissSlot(c, k.cache, SetOf(c, a.page)));
    forall w | 0 <= w < c.setSize
      ensures LineIn(k.cache, Slot(SetOf(c, a.page), w)).ts == LastUse(c, start, es, Slot(SetOf(c, a.page), w))
    {
      StampIsLastUse(c, start, es, y, Slot(SetOf(c, a.page), w));
    }
  }
}
