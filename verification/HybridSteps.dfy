/** Each step of the controller: it cannot fail, and it keeps the whole invariant. */
module HybridSteps {
  import opened Basics
  import opened HybridGeometry
  import opened InOrderMemory
  import opened HybridController
  import opened HybridLocks
  import opened HybridTables
  import opened HybridLockSteps
  import opened HybridMissSteps
  import opened HybridCallbacks
  import opened HybridLedger
  import opened HybridContents
  import opened HybridReads
  import opened HybridInvariant
  import opened HybridReturns
  import opened HybridProgress

  // Wake-up.

  /** pending_count is the length of the queue and the transactions under way. */
  ghost predicate Counting(k: Core, f: Front) { f.pendingCount == |f.queue| + |k.pendingFlash| }

  /** No lost wake-up: with check_queue off, nothing in the queue could be dequeued. */
  ghost predicate Awake(c: Config, k: Core, f: Front)
    requires Good(c)
  {
    !f.checkQueue && |k.pendingPages| < NumSets(c) ==>
      forall i :: 0 <= i < |f.queue| ==> !IsUnlocked(c, k, Align(c, f.queue[i].addr))
  }

  /** Locks are only taken. */
  ghost predicate Tighter(c: Config, k: Core, k': Core) {
    && k.pendingPages.Keys <= k'.pendingPages.Keys && k.pendingFlash <= k'.pendingFlash
    && forall i :: CountIn(k.setCounter, i) == c.setSize ==> CountIn(k'.setCounter, i) == c.setSize
  }

  lemma AwakeKept(c: Config, k: Core, k': Core, f: Front, f': Front)
    requires Good(c) && Awake(c, k, f) && Tighter(c, k, k') && f'.queue == f.queue && f'.checkQueue == f.checkQueue
    ensures Awake(c, k', f')
  {
    hide Align, SetOf, NumSets;
    Larger(k.pendingPages.Keys, k'.pendingPages.Keys);
  }

  lemma Larger<T>(x: set<T>, y: set<T>)
    requires x <= y
    ensures |x| <= |y|
  {
    assert y == x + (y - x);
  }

  ghost predicate Whole(c: Config, s: Ctl, m: Memories, u: Callers, g: Aux)
    requires Good(c)
  {
    Invariant(c, s, m, u, g) && Counting(s.core, s.front) && Awake(c, s.core, s.front)
  }

  // Lookups.

  lemma HitFound(c: Config, cache: Cache, page: nat, w: nat)
    requires Good(c) && w == HitWay(c, cache, SetOf(c, page), TagOf(c, page), 0)
    ensures w < c.setSize ==> IsSlot(c, Slot(SetOf(c, page), w)) && Caches(c, cache, Slot(SetOf(c, page), w), page)
    ensures w == c.setSize ==> Absent(c, cache, page)
  {
    PageSplit(c, page);
    hide SetOf, TagOf, NumSets;
    if w == c.setSize {
      forall x | IsSlot(c, x) && x.set_ == SetOf(c, page)
        ensures !Caches(c, cache, x, page)
      {
        assert x == Slot(x.set_, x.way);
      }
    }
  }

  /** The log entry of a transaction that is looked up. */
  ghost function Begun(o: Out, t: Txn): Out {
    if Demanded(t) && IndexOf(o.logQueue, t.addr) < |o.logQueue| then
      o.(logQueue := Without(o.logQueue, IndexOf(o.logQueue, t.addr)), logMap := o.logMap + {t.addr})
    else o
  }

  lemma Begins(c: Config, s: Ctl, u: Callers, t: Txn, a: Addr, op: Op)
    requires Good(c) && Accounted(c, u.hist, LedgerOf(s)) && Looking(c, s, t, a) && a !in s.core.ops
    requires op.txn == t && (Open(op) <==> Demanded(t))
    ensures Demanded(t) ==> LogProcess(s.out, t.addr) == Fine(Begun(s.out, t))
    ensures Accounted(c, u.hist, Ledger(WaitingOf(Looked(s.front)), s.core.ops[a := op], s.out.done,
            Begun(s.out, t).logQueue, Begun(s.out, t).logMap))
  {
    hide Accounted, Align;
    WaitingLooked(s.front);
    Opened(c, u.hist, LedgerOf(s), a, op);
  }

  lemma Aligned(c: Config, k: Core, tb: Tables, active: set<Addr>)
    requires Good(c) && Locked(c, k, tb, active)
    ensures forall b :: b in k.ops ==> Align(c, k.ops[b].txn.addr) == b
  {
    hide Tabled, Counted, Lines, Paged, Align;
    forall b | b in k.ops ensures Align(c, k.ops[b].txn.addr) == b { assert OpShape(c, b, k.ops[b]); }
  }

  lemma LookReadHit(c: Config, s: Ctl, m: Memories, u: Callers, g: Aux, t: Txn, a: Addr, slot: Slot) returns (s': Ctl)
    requires Good(c) && Whole(c, s, m, u, g) && Looking(c, s, t, a) && t.kind == DataRead
    requires IsSlot(c, slot) && Caches(c, s.core.cache, slot, a.page)
    ensures LogProcess(s.out, t.addr) == Fine(Begun(s.out, t))
            && ProcessHit(c, s.(out := Begun(s.out, t)), t, a, slot) == Fine(s')
    ensures s'.out.dramQueue == s.out.dramQueue + [Rd(DAddr(slot, a.off))] && s'.out.flashQueue == s.out.flashQueue
    ensures Whole(c, s'.(front := Looked(s'.front)), SubmitBoth(m, [Rd(DAddr(slot, a.off))], []), u, g)
    ensures Advances(c, s, s'.(front := Looked(s'.front)), [Rd(DAddr(slot, a.off))], [])
  {
    hide Locked, Accounted, Faithful, Awake, Align, Caches, ProcessHit, Begun, SubmitBoth, SetOf, Advances;
    var o := Begun(s.out, t);
    HitFacts(c, s.core, s.tables, t, a, slot);
    Begins(c, s, u, t, a, HitOp(t, slot));
    ReadHit(c, s.(out := o), t, a, slot);
    s' := s.(core := ReadHitCore(s.core, t, a, slot, s.front.now), tables := ReadHitTables(s.tables, t, a, slot),
             out := o.(dramQueue := o.dramQueue + [Rd(DAddr(slot, a.off))]));
    BegunFields(s.out, t);
    var s2 := s'.(front := Looked(s'.front));
    ReadHitLocked(c, s.core, s.tables, t, a, slot, s.front.now);
    ReadHitFaithful(c, s, m, u, g, t, a, slot, s2);
    ReadHitAdvances(c, s, s2, t, a, slot);
    AwakeKept(c, s.core, s2.core, s.front, s2.front);
  }

  lemma BegunFields(o: Out, t: Txn)
    ensures Begun(o, t).dramQueue == o.dramQueue && Begun(o, t).flashQueue == o.flashQueue && Begun(o, t).done == o.done
  {
  }

  lemma Removed<T>(x: set<T>, e: T)
    ensures e in x ==> |x - {e}| == |x| - 1
    ensures e !in x ==> |x + {e}| == |x| + 1
  {
    if e in x { assert x == (x - {e}) + {e}; }
  }

  lemma LookPrefetchHit(c: Config, s: Ctl, m: Memories, u: Callers, g: Aux, t: Txn, a: Addr, slot: Slot)
      returns (s': Ctl)
    requires Good(c) && Whole(c, s, m, u, g) && Looking(c, s, t, a) && t.kind == Prefetch
    requires IsSlot(c, slot) && Caches(c, s.core.cache, slot, a.page)
    ensures ProcessHit(c, s, t, a, slot) == Fine(s') && s'.out == s.out
    ensures Whole(c, s'.(front := Looked(s'.front)), m, u, g)
    ensures Advances(c, s, s'.(front := Looked(s'.front)), [], [])
  {
    hide Locked, Accounted, Faithful, Align, Caches, ProcessHit, SetOf, Advances;
    HitFacts(c, s.core, s.tables, t, a, slot);
    PrefetchHit(c, s, t, a, slot);
    s' := s.(core := HitDone(s.core, a, slot, LineIn(s.core.cache, slot)), front := Woken(s.front));
    var s2 := s'.(front := Looked(s'.front));
    WaitingLooked(s.front);
    assert WaitingOf(s2.front) == WaitingOf(Looked(s.front));
    PrefetchDropped(c, u.hist, LedgerOf(s));
    HitDoneLocked(c, s.core, s.tables, t, a, slot, LineIn(s.core.cache, slot));
    PrefetchHitFaithful(c, s, m, u, g, t, a, slot, s2);
    DoneHitAdvances(c, s, s2, a, []);
    Removed(s.core.pendingFlash, a);
  }

  lemma WriteAnswers(c: Config, s: Ctl, u: Callers, t: Txn, a: Addr, slot: Slot)
    requires Good(c) && Accounted(c, u.hist, LedgerOf(s)) && Looking(c, s, t, a) && a !in s.core.ops
             && t.kind == DataWrite
    requires forall b :: b in s.core.ops ==> Align(c, s.core.ops[b].txn.addr) == b
    ensures var o := Begun(s.out, t);
            && LogProcess(s.out, t.addr) == Fine(o) && t.addr in o.logMap
            && Accounted(c, u.hist, Ledger(WaitingOf(Looked(s.front)), s.core.ops,
               s.out.done + [Completion(true, t.id, CallbackAddr(t.addr), t.data)],
                                           o.logQueue, o.logMap - {t.addr}))
  {
    hide Accounted, Align, WaitingOf, Begun;
    var op := HitOp(t, slot);
    var o := Begun(s.out, t);
    var d := Completion(true, t.id, CallbackAddr(t.addr), t.data);
    Begins(c, s, u, t, a, op);
    var g1 := Ledger(WaitingOf(Looked(s.front)), s.core.ops[a := op], s.out.done, o.logQueue, o.logMap);
    OpenKnown(c, u.hist, g1, a);
    RemapRoundTrip(u.hist[t.id].addr);
    Answered(c, u.hist, g1, a, d);
    assert g1.ops - {a} == s.core.ops;
  }

  lemma LookWriteHit(c: Config, s: Ctl, m: Memories, u: Callers, g: Aux, t: Txn, a: Addr, slot: Slot) returns (s': Ctl)
    requires Good(c) && Whole(c, s, m, u, g) && Looking(c, s, t, a) && t.kind == DataWrite
    requires IsSlot(c, slot) && Caches(c, s.core.cache, slot, a.page)
    ensures LogProcess(s.out, t.addr) == Fine(Begun(s.out, t))
            && ProcessHit(c, s.(out := Begun(s.out, t)), t, a, slot) == Fine(s')
    ensures s'.out.dramQueue == s.out.dramQueue + [Wr(DAddr(slot, a.off), t.data)]
            && s'.out.flashQueue == s.out.flashQueue
    ensures Whole(c, s'.(front := Looked(s'.front)), SubmitBoth(m, [Wr(DAddr(slot, a.off), t.data)], []), u,
            g.(spec := Store(g.spec, a, t.data)))
    ensures Advances(c, s, s'.(front := Looked(s'.front)), [Wr(DAddr(slot, a.off), t.data)], [])
  {
    hide Locked, Accounted, Faithful, Align, Caches, ProcessHit, Begun, SubmitBoth, SetOf, Store, Advances;
    var o := Begun(s.out, t);
    HitFacts(c, s.core, s.tables, t, a, slot);
    Aligned(c, s.core, s.tables, {a});
    WriteAnswers(c, s, u, t, a, slot);
    WriteHit(c, s.(out := o), t, a, slot);
    var l := Written(s.core, slot, s.front.now);
    s' := s.(core := HitDone(s.core, a, slot, l), front := Woken(s.front),
             out := o.(dramQueue := o.dramQueue + [Wr(DAddr(slot, a.off), t.data)],
                       done := o.done + [Completion(true, t.id, CallbackAddr(t.addr), t.data)],
                           logMap := o.logMap - {t.addr}));
    BegunFields(s.out, t);
    var s2 := s'.(front := Looked(s'.front));
    assert WaitingOf(s2.front) == WaitingOf(Looked(s.front));
    HitDoneLocked(c, s.core, s.tables, t, a, slot, l);
    WriteHitFaithful(c, s, m, u, g, t, a, slot, s2);
    DoneHitAdvances(c, s, s2, a, [Wr(DAddr(slot, a.off), t.data)]);
    Removed(s.core.pendingFlash, a);
  }

  lemma LookMiss(c: Config, s: Ctl, m: Memories, u: Callers, g: Aux, t: Txn, a: Addr, slot: Slot) returns (s': Ctl)
    requires Good(c) && Whole(c, s, m, u, g) && Looking(c, s, t, a)
    requires Absent(c, s.core.cache, a.page) && slot == MissSlot(c, s.core.cache, SetOf(c, a.page))
    ensures Demanded(t) ==> LogProcess(s.out, t.addr) == Fine(Begun(s.out, t))
    ensures ProcessMiss(c, s.(out := Begun(s.out, t)), t, a) == Fine(s')
    ensures s'.out.dramQueue == s.out.dramQueue + MissReads(c, slot, LineIn(s.core.cache, slot))
    ensures s'.out.flashQueue == s.out.flashQueue + ChunkReads(a.page, Chunks(c))
    ensures Whole(c, s'.(front := Looked(s'.front)),
            SubmitBoth(m, MissReads(c, slot, LineIn(s.core.cache, slot)), ChunkReads(a.page, Chunks(c))), u,
                  MissAux(c, m, g, t, a, slot))
    ensures Advances(c, s, s'.(front := Looked(s'.front)), MissReads(c, slot, LineIn(s.core.cache, slot)),
            ChunkReads(a.page, Chunks(c)))
  {
    hide Advances, Locked, Accounted, Faithful, Awake, Align, ProcessMiss, Begun, SubmitBoth, SetOf, MissSlot, MissAux,
      MissTables, LineOf, OpShape, Absent, ChunkReads, PageReads, Chunks, Bursts, Tighter;
    var o := Begun(s.out, t);
    var l := LineIn(s.core.cache, slot);
    MissFacts(c, s.core, s.tables, t, a);
    Begins(c, s, u, t, a, MissOp(t, slot, l));
    Miss(c, s.(out := o), t, a, slot);
    s' := s.(core := MissCore(c, s.core, t, a, slot), tables := MissTables(c, s.tables, t, a, slot, l),
        out := MissOut(c, o, a, slot, l));
    BegunFields(s.out, t);
    var s2 := s'.(front := Looked(s'.front));
    assert s.out.dramQueue + [] == s.out.dramQueue;
    MissLocked(c, s.core, s.tables, t, a, slot);
    MissFaithful(c, s, m, u, g, t, a, slot, s2);
    MissTighter(c, s.core, t, a, slot);
    MissAdvances(c, s, s2, t, a, slot, l, MissReads(c, slot, l));
    AwakeKept(c, s.core, s2.core, s.front, s2.front);
  }

  lemma MissTighter(c: Config, k: Core, t: Txn, a: Addr, slot: Slot)
    requires Good(c) && CountIn(k.setCounter, slot.set_) < c.setSize
    ensures Tighter(c, k, MissCore(c, k, t, a, slot)) && MissCore(c, k, t, a, slot).pendingFlash == k.pendingFlash
  {
    hide PageOf;
  }

  /** A lookup: no abort, and the requests it makes keep every promise. */
  lemma Lookup(c: Config, s: Ctl, m: Memories, u: Callers, g: Aux, t: Txn)
    returns (s': Ctl, rd: seq<Req<DAddr, int>>, rf: seq<Req<FAddr, nat -> int>>, g': Aux)
    requires Good(c) && Whole(c, s, m, u, g) && s.front.active == Some(t)
    ensures ProcessTransaction(c, s, t) == Fine(s')
    ensures s'.out.dramQueue == s.out.dramQueue + rd && s'.out.flashQueue == s.out.flashQueue + rf
    ensures Whole(c, s'.(front := Looked(s'.front)), SubmitBoth(m, rd, rf), u, g')
    ensures Advances(c, s, s'.(front := Looked(s'.front)), rd, rf)
  {
    hide Whole, Advances, Align, ProcessHit, ProcessMiss, SubmitBoth, MissSlot, MissReads, ChunkReads, SetOf, TagOf,
      Caches, Absent, Begun, MissAux;
    var a := Align(c, t.addr);
    AlignFaithful(c, t.addr);
    var w := HitWay(c, s.core.cache, SetOf(c, a.page), TagOf(c, a.page), 0);
    HitFound(c, s.core.cache, a.page, w);
    var slot := Slot(SetOf(c, a.page), w);
    g', rd, rf := g, [], [];
    if w == c.setSize {
      slot := MissSlot(c, s.core.cache, SetOf(c, a.page));
      s' := LookMiss(c, s, m, u, g, t, a, slot);
      rd, rf := MissReads(c, slot, LineIn(s.core.cache, slot)), ChunkReads(a.page, Chunks(c));
      g' := MissAux(c, m, g, t, a, slot);
      NothingBegun(s.out, t);
    } else if t.kind == DataRead {
      s' := LookReadHit(c, s, m, u, g, t, a, slot);
      rd := [Rd(DAddr(slot, a.off))];
    } else if t.kind == DataWrite {
      s' := LookWriteHit(c, s, m, u, g, t, a, slot);
      rd := [Wr(DAddr(slot, a.off), t.data)];
      g' := g.(spec := Store(g.spec, a, t.data));
    } else {
      s' := LookPrefetchHit(c, s, m, u, g, t, a, slot);
      SubmitNothing(m);
      NothingBegun(s.out, t);
    }
  }

  lemma NothingBegun(o: Out, t: Txn)
    ensures !Demanded(t) ==> Begun(o, t) == o
  {
  }

  lemma SubmitNothing(m: Memories)
    ensures SubmitBoth(m, [], []) == m
  {
    assert m.dram.q + [] == m.dram.q && m.flash.q + [] == m.flash.q;
  }

  // The queue.

  lemma DispatchLocked(c: Config, k: Core, tb: Tables, a: Addr)
    requires Good(c) && Locked(c, k, tb, {}) && IsUnlocked(c, k, a)
    ensures Locked(c, k.(pendingFlash := k.pendingFlash + {a}), tb, {a})
  {
    hide Held, Lines, Tabled, SetOf, SetCounted;
    HeldDispatch(c, k, a);
    PageSplit(c, a.page);
    var i := SetOf(c, a.page);
    assert SetCounted(c, k.cache, k.setCounter, i);
    CountBelow(c, k.cache, k.setCounter, i);
  }

  lemma CountBelow(c: Config, cache: Cache, counter: map<nat, int>, i: nat)
    requires SetCounted(c, cache, counter, i) && CountIn(counter, i) != c.setSize
    ensures CountIn(counter, i) < c.setSize
  {
  }

  lemma FirstIsServable(c: Config, k: Core, queue: seq<Txn>, i: nat)
    requires Good(c) && i == FirstUnlocked(c, k, queue, 0) && i < |queue|
    ensures Servable(Reqs(c, queue), i)
  {
    hide Align, IsUnlocked;
    forall j | 0 <= j < i ensures Reqs(c, queue)[j].key != Reqs(c, queue)[i].key {
      assert !IsUnlocked(c, k, Align(c, queue[j].addr));
    }
  }

  lemma DispatchStep(c: Config, s: Ctl, m: Memories, u: Callers, g: Aux, i: nat)
    requires Good(c) && Whole(c, s, m, u, g) && s.front.active == None && s.front.checkQueue
    requires i == FirstUnlocked(c, s.core, s.front.queue, 0) && i < |s.front.queue|
    ensures Whole(c, Dispatch(c, s, i), m, u, g)
  {
    hide Locked, Accounted, Contents, DramPromised, FlashPromised, Gathered, Ordered, ReadsPromised, ImageOf, Align,
      ToFront, Servable;
    var t := s.front.queue[i];
    var a := Align(c, t.addr);
    var s' := Dispatch(c, s, i);
    assert WaitingOf(s.front) == s.front.queue;
    assert WaitingOf(s'.front) == ToFront(s.front.queue, i) by { ToFrontIs(s.front.queue, i); }
    DispatchLocked(c, s.core, s.tables, a);
    Dispatched(c, u.hist, LedgerOf(s), i);
    FirstIsServable(c, s.core, s.front.queue, i);
    OrderedDispatch(c, u.hist, s.front.queue, g.spec, u.flat, i);
    DispatchContents(c, s.core, s'.core, ImageOf(c, m.dram, m.flash), g);
    Removed(s.core.pendingFlash, a);
  }

  lemma ToFrontIs(q: seq<Txn>, i: nat)
    requires i < |q|
    ensures ToFront(q, i) == [q[i]] + Without(q, i)
  {
  }

  lemma DispatchContents(c: Config, k: Core, k': Core, i: Image, g: Aux)
    requires Good(c) && Contents(c, k, i, g.prom, g.spec) && k' == k.(pendingFlash := k'.pendingFlash)
    ensures Contents(c, k', i, g.prom, g.spec)
  {
    hide Caches, Absent, Settled;
    forall page: nat, o: nat | o < Bursts(c) ensures BurstOk(c, k', i, g.prom, page, o, g.spec(Addr(page, o))) {
      assert BurstOk(c, k, i, g.prom, page, o, g.spec(Addr(page, o)));
      forall slot ensures CachedOk(c, k', i, slot, page, o, g.spec(Addr(page, o))) {
        assert CachedOk(c, k, i, slot, page, o, g.spec(Addr(page, o)));
      }
    }
  }

  /** The front end may change its scan flag, clock and delay. */
  lemma FrontStep(c: Config, s: Ctl, s': Ctl, m: Memories, u: Callers, g: Aux)
    requires Good(c) && Whole(c, s, m, u, g) && s'.core == s.core && s'.tables == s.tables
    requires s'.front.queue == s.front.queue && s'.front.active == s.front.active
             && s'.front.pendingCount == s.front.pendingCount
    requires s'.out.done == s.out.done && s'.out.logQueue == s.out.logQueue && s'.out.logMap == s.out.logMap
    requires Awake(c, s.core, s'.front)
    ensures Whole(c, s', m, u, g)
  {
    hide Locked, Accounted, Contents, DramPromised, FlashPromised, Gathered, Ordered, ReadsPromised, ImageOf, Align;
  }

  lemma ScanStep(c: Config, s: Ctl, m: Memories, u: Callers, g: Aux)
    requires Good(c) && Whole(c, s, m, u, g) && (s.front.delay == 0 ==> s.front.active == None)
    ensures Whole(c, ScanQueue(c, s), m, u, g) && ScanQueue(c, s).out == s.out
  {
    hide Invariant, Align, IsUnlocked, NumSets;
    if s.front.delay == 0 {
      var i := FirstUnlocked(c, s.core, s.front.queue, 0);
      if |s.core.pendingPages| < NumSets(c) && s.front.checkQueue && i < |s.front.queue| {
        DispatchStep(c, s, m, u, g, i);
      } else {
        FrontStep(c, s, s.(front := s.front.(checkQueue := false)), m, u, g);
      }
    }
  }

  // Callers.

  lemma HistGrows(c: Config, s: Ctl, m: Memories, u: Callers, g: Aux, r: Request)
    requires Good(c) && DramPromised(s.tables, g.prom, u.hist, m.dram) && ReadsPromised(s.core.ops, g.prom, u.hist)
    ensures DramPromised(s.tables, g.prom, u.hist + [r], m.dram) && ReadsPromised(s.core.ops, g.prom, u.hist + [r])
  {
    hide Answer;
    forall j | 0 <= j < |m.dram.q| && m.dram.q[j].Rd?
      ensures DramReadOk(s.tables, g.prom, u.hist + [r], m.dram.q[j].key, Answer(m.dram, j))
    {
      assert DramReadOk(s.tables, g.prom, u.hist, m.dram.q[j].key, Answer(m.dram, j));
    }
  }

  /** What the callers see of an accepted request: a flat memory answers it at once. */
  ghost function Asked(c: Config, u: Callers, isWrite: bool, addr: nat, data: int): Callers
    requires Good(c)
  {
    var a := Align(c, Remap(addr));
    Callers(u.hist + [Request(isWrite, addr, data, u.flat(a))],
            if isWrite && !InMmioHole(addr) then Store(u.flat, a, data) else u.flat)
  }

  lemma AcceptStep(c: Config, s: Ctl, m: Memories, u: Callers, g: Aux, isWrite: bool, addr: nat, data: int)
    requires Good(c) && Whole(c, s, m, u, g)
    ensures Whole(c, AddTransaction(s, isWrite, addr, |u.hist|, data), m, Asked(c, u, isWrite, addr, data), g)
  {
    hide Locked, Accounted, Contents, DramPromised, FlashPromised, Gathered, Ordered, ReadsPromised, ImageOf, Align,
      IsUnlocked, Store;
    var r := Request(isWrite, addr, data, u.flat(Align(c, Remap(addr))));
    var s' := AddTransaction(s, isWrite, addr, |u.hist|, data);
    HistGrows(c, s, m, u, g, r);
    if InMmioHole(addr) {
      AcceptDropped(c, u.hist, LedgerOf(s), r, Completion(isWrite, |u.hist|, addr, data));
      OrderedDropped(c, u.hist, WaitingOf(s.front), g.spec, u.flat, r);
    } else {
      var t := Txn(if isWrite then DataWrite else DataRead, Remap(addr), |u.hist|, data);
      assert WaitingOf(s'.front) == WaitingOf(s.front) + [t];
      Accept(c, u.hist, LedgerOf(s), t, r);
      OrderedAccept(c, u.hist, WaitingOf(s.front), g.spec, u.flat, t, r);
    }
  }

  lemma PrefetchStep(c: Config, s: Ctl, m: Memories, u: Callers, g: Aux, addr: nat)
    requires Good(c) && Whole(c, s, m, u, g)
    ensures Whole(c, AddPrefetch(s, addr), m, u, g)
  {
    hide Locked, Accounted, Contents, DramPromised, FlashPromised, Gathered, Ordered, ReadsPromised, ImageOf, Align,
      IsUnlocked;
    var t := Txn(Prefetch, addr, 0, 0);
    var s' := AddPrefetch(s, addr);
    var w := if s.front.active.Some? then [s.front.active.value] else [];
    assert WaitingOf(s.front) == w + s.front.queue;
    assert WaitingOf(s'.front) == w + ([t] + s.front.queue);
    AddedPrefetch(c, u.hist, LedgerOf(s), w, s.front.queue, t);
    OrderedPrefetch(c, u.hist, w, s.front.queue, g.spec, u.flat, t);
  }
}
