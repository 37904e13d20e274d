/**
 Work in progress: every read the controller waits for is on its way, and every step but an idle cycle
 uses up some of the work that is left.
 */
module HybridProgress {
  import opened Basics
  import opened Arithmetic
  import opened HybridGeometry
  import opened InOrderMemory
  import opened HybridController
  import opened HybridLocks
  import opened HybridLockSteps
  import opened HybridMissSteps
  import opened HybridCallbacks
  import opened HybridReads

  // Reads the controller waits for.

  ghost predicate DramExpected(tb: Tables, key: DAddr) {
    if key.slot in tb.dramWait then key.off in tb.dramWait[key.slot] else key in tb.dramPending
  }

  ghost predicate FlashExpected(tb: Tables, key: FAddr) {
    key.page in tb.flashWait && key.idx in tb.flashWait[key.page]
  }

  /** Each of them has been asked for and not yet answered. */
  ghost predicate Awaited(tb: Tables, d: Dram, f: Flash) {
    && (forall key :: DramExpected(tb, key) ==> Rd(key) in d.q)
    && (forall key :: FlashExpected(tb, key) ==> Rd(key) in f.q)
  }

  /** What is expected in addition is asked for. */
  ghost predicate Asks(tb: Tables, tb': Tables, rd: seq<Req<DAddr, int>>, rf: seq<Req<FAddr, nat -> int>>) {
    && (forall key :: DramExpected(tb', key) ==> DramExpected(tb, key) || Rd(key) in rd)
    && (forall key :: FlashExpected(tb', key) ==> FlashExpected(tb, key) || Rd(key) in rf)
  }

  lemma AskedAwaited(tb: Tables, tb': Tables, d: Dram, f: Flash,
                     rd: seq<Req<DAddr, int>>, rf: seq<Req<FAddr, nat -> int>>)
    requires Awaited(tb, d, f) && Asks(tb, tb', rd, rf)
    ensures Awaited(tb', Submit(d, rd), Submit(f, rf))
  {
    hide DramExpected, FlashExpected;
  }

  /** What has come back is expected no longer. */
  ghost predicate DramSettles(tb: Tables, tb': Tables, gone: DAddr) {
    && (forall key :: DramExpected(tb', key) ==> DramExpected(tb, key) && key != gone)
    && (forall key :: FlashExpected(tb', key) ==> FlashExpected(tb, key))
  }

  ghost predicate FlashSettles(tb: Tables, tb': Tables, gone: FAddr) {
    && (forall key :: FlashExpected(tb', key) ==> FlashExpected(tb, key) && key != gone)
    && (forall key :: DramExpected(tb', key) ==> DramExpected(tb, key))
  }

  /** A request that is not served stays. */
  lemma StaysBehind<K, V>(d: Device<K, V>, i: nat, r: Req<K, V>)
    requires i < |d.q| && r in d.q && r != d.q[i]
    ensures r in Serve(d, i).q
  {
    var j :| 0 <= j < |d.q| && d.q[j] == r;
    assert Without(d.q, i)[if j < i then j else j - 1] == r;
  }

  lemma DramServedAwaited(tb: Tables, tb': Tables, d: Dram, f: Flash, i: nat)
    requires Awaited(tb, d, f) && i < |d.q| && (if d.q[i].Rd? then DramSettles(tb, tb', d.q[i].key) else tb' == tb)
    ensures Awaited(tb', Serve(d, i), f)
  {
    hide DramExpected, FlashExpected, Serve;
    forall key | DramExpected(tb', key) ensures Rd(key) in Serve(d, i).q { StaysBehind(d, i, Rd(key)); }
  }

  lemma FlashServedAwaited(tb: Tables, tb': Tables, d: Dram, f: Flash, i: nat)
    requires Awaited(tb, d, f) && i < |f.q| && (if f.q[i].Rd? then FlashSettles(tb, tb', f.q[i].key) else tb' == tb)
    ensures Awaited(tb', d, Serve(f, i))
  {
    hide DramExpected, FlashExpected, Serve;
    forall key | FlashExpected(tb', key) ensures Rd(key) in Serve(f, i).q { StaysBehind(f, i, Rd(key)); }
  }

  /** An operation under way waits for a read. */
  lemma OpWaits(c: Config, k: Core, tb: Tables, a: Addr, active: set<Addr>)
    requires Good(c) && Locked(c, k, tb, active) && a in k.ops
    ensures (exists key :: DramExpected(tb, key)) || (exists key :: FlashExpected(tb, key))
  {
    hide Held, Counted, Lines, Tabled;
    LockedOpFacts(c, k, tb, a, active);
    var op := k.ops[a];
    OpFiled(c, k, tb, a, active);
    if op.lineOut {
      var idx :| idx in tb.flashWait[a.page];
      assert FlashExpected(tb, FAddr(a.page, idx));
    } else if op.victimOut {
      var off :| off in tb.dramWait[op.slot];
      assert DramExpected(tb, DAddr(op.slot, off));
    } else {
      assert DramExpected(tb, DAddr(op.slot, a.off));
    }
  }

  lemma OpFiled(c: Config, k: Core, tb: Tables, a: Addr, active: set<Addr>)
    requires Good(c) && Locked(c, k, tb, active) && a in k.ops && OpShape(c, a, k.ops[a])
    ensures k.ops[a].lineOut ==> a.page in tb.flashWait && tb.flashWait[a.page] != {}
    ensures k.ops[a].victimOut ==> k.ops[a].slot in tb.dramWait && tb.dramWait[k.ops[a].slot] != {}
    ensures !k.ops[a].miss ==> DAddr(k.ops[a].slot, a.off) in tb.dramPending && k.ops[a].slot !in tb.dramWait
  {
    hide Held, Counted, Lines, FlashTable, DramTable, UpTo, Align, SetOf;
    var op := k.ops[a];
    Filings(c, k.ops, tb, a);
    if op.lineOut { FlashEntryFacts(c, k, tb, a.page, active); }
    if op.victimOut {
      DramEntryFacts(c, k, tb, DAddr(op.slot, 0), active);
      VictimEntryFacts(c, k, tb, op.slot, active);
    }
    if !op.miss { DramEntryFacts(c, k, tb, DAddr(op.slot, a.off), active); }
  }

  lemma Filings(c: Config, ops: Ops, tb: Tables, a: Addr)
    requires Good(c) && Tabled(c, ops, tb) && a in ops
    ensures Filed(tb.dramPending, a, ops[a]) && (ops[a].lineOut ==> a.page in tb.flashPending)
  {
  }

  // Tables.

  lemma ReadHitAsks(tb: Tables, t: Txn, a: Addr, slot: Slot)
    ensures Asks(tb, ReadHitTables(tb, t, a, slot), [Rd(DAddr(slot, a.off))], [])
  {
  }

  lemma AsksNothing(tb: Tables, rd: seq<Req<DAddr, int>>, rf: seq<Req<FAddr, nat -> int>>)
    ensures Asks(tb, tb, rd, rf)
  {
  }

  lemma MissAsks(c: Config, tb: Tables, t: Txn, a: Addr, slot: Slot, l: Line)
    requires Good(c)
    ensures Asks(tb, MissTables(c, tb, t, a, slot, l), if l.dirty then PageReads(slot, Bursts(c)) else [],
                 ChunkReads(a.page, Chunks(c)))
  {
    hide Bursts, Chunks;
    var tb' := MissTables(c, tb, t, a, slot, l);
    var rf := ChunkReads(a.page, Chunks(c));
    forall key | FlashExpected(tb', key) ensures FlashExpected(tb, key) || Rd(key) in rf {
      if key.page == a.page { assert rf[key.idx] == Rd(key); }
    }
    var rd := if l.dirty then PageReads(slot, Bursts(c)) else [];
    forall key | DramExpected(tb', key) ensures DramExpected(tb, key) || Rd(key) in rd {
      if l.dirty && key.slot == slot { assert rd[key.off] == Rd(key); }
    }
  }

  lemma CacheReadSettles(c: Config, k: Core, tb: Tables, key: DAddr, active: set<Addr>)
    requires Good(c) && Locked(c, k, tb, active) && key.slot !in tb.dramWait && key in tb.dramPending
    ensures DramSettles(tb, tb.(dramPending := tb.dramPending - {key}), key)
  {
    hide Locked;
  }

  lemma VictimPartSettles(tb: Tables, key: DAddr, got: nat -> int)
    requires key.slot in tb.dramWait
    ensures DramSettles(tb, tb.(dramWait := tb.dramWait[key.slot := tb.dramWait[key.slot] - {key.off}],
                                dramGot := tb.dramGot[key.slot := got]), key)
  {
  }

  /** Nothing else is filed under the slot of a miss. */
  lemma VictimSettles(c: Config, k: Core, tb: Tables, key: DAddr, active: set<Addr>)
    requires Good(c) && Locked(c, k, tb, active) && key.slot in tb.dramWait
    ensures DramSettles(tb, VictimTables(tb, key.slot), key)
  {
    hide Locked;
    var tb' := VictimTables(tb, key.slot);
    forall x | DramExpected(tb', x) ensures DramExpected(tb, x) && x != key {
      if x.slot == key.slot { DramEntryFacts(c, k, tb, x, active); }
    }
  }

  lemma LinePartSettles(tb: Tables, key: FAddr, got: nat -> int)
    requires key.page in tb.flashWait
    ensures FlashSettles(tb, tb.(flashWait := tb.flashWait[key.page := tb.flashWait[key.page] - {key.idx}],
                                 flashGot := tb.flashGot[key.page := got]), key)
  {
  }

  lemma LineSettles(tb: Tables, key: FAddr)
    ensures FlashSettles(tb, LineTables(tb, key.page), key)
  {
  }

  // Work.

  function Flag(b: bool): nat { if b then 1 else 0 }

  /** A request still to be sent counts twice; a read of a page, with the writes it leads to. */
  function PageWork(c: Config, tb: Tables): nat
    requires Good(c)
  {
    Times(|tb.flashWait|, 2 * Bursts(c)) + Times(|tb.dramWait|, 2 * Chunks(c))
  }

  function SendWork(o: Out): nat { 2 * |o.dramQueue| + 2 * |o.flashQueue| }

  function LookupWork(c: Config): nat
    requires Good(c)
  {
    4 * Bursts(c) + 4 * Chunks(c) + 3
  }

  function TransactionWork(c: Config): nat
    requires Good(c)
  {
    LookupWork(c) + c.controllerDelay + 2
  }

  function FrontWork(c: Config, k: Core, f: Front): nat
    requires Good(c)
  {
    Times(|f.queue|, TransactionWork(c)) + (if f.active.Some? then LookupWork(c) else 0) + f.delay
    + Flag(f.checkQueue) + |k.pendingFlash|
  }

  function Work(c: Config, s: Ctl): nat
    requires Good(c)
  {
    FrontWork(c, s.core, s.front) + PageWork(c, s.tables) + SendWork(s.out)
  }

  lemma PageWorkMiss(c: Config, tb: Tables, t: Txn, a: Addr, slot: Slot, l: Line)
    requires Good(c)
    ensures PageWork(c, MissTables(c, tb, t, a, slot, l)) <= PageWork(c, tb) + 2 * Bursts(c) + 2 * Chunks(c)
  {
    hide Times, Bursts, Chunks, UpTo, PageWork;
    var flashWait := tb.flashWait[a.page := UpTo(Chunks(c))];
    var dramWait := tb.dramWait[slot := UpTo(Bursts(c))];
    AddedKey(tb.flashWait, a.page, UpTo(Chunks(c)));
    AddedKey(tb.dramWait, slot, UpTo(Bursts(c)));
    PageWorkMore(c, tb, MissTables(c, tb, t, a, slot, l));
  }

  lemma PageWorkMore(c: Config, tb: Tables, tb': Tables)
    requires Good(c) && |tb.flashWait| <= |tb'.flashWait| <= |tb.flashWait| + 1
             && |tb.dramWait| <= |tb'.dramWait| <= |tb.dramWait| + 1
    ensures PageWork(c, tb') <= PageWork(c, tb) + 2 * Bursts(c) + 2 * Chunks(c)
  {
    hide Times, Bursts, Chunks;
    TimesNext(|tb.flashWait|, 2 * Bursts(c));
    TimesNext(|tb.dramWait|, 2 * Chunks(c));
  }

  lemma AddedKey<K, V>(m: map<K, V>, k: K, v: V)
    ensures |m[k := v]| == |m| + Flag(k !in m)
  {
    if k in m { assert m[k := v].Keys == m.Keys; } else { assert m[k := v].Keys == m.Keys + {k}; }
  }

  lemma RemovedKey<K, V>(m: map<K, V>, k: K)
    requires k in m
    ensures |m| == |m - {k}| + 1
  {
    assert m.Keys == (m - {k}).Keys + {k};
  }

  lemma PageWorkVictim(c: Config, tb: Tables, slot: Slot)
    requires Good(c) && slot in tb.dramWait
    ensures PageWork(c, tb) == PageWork(c, VictimTables(tb, slot)) + 2 * Chunks(c)
  {
    hide Times, Bursts, Chunks;
    RemovedKey(tb.dramWait, slot);
    TimesNext(|tb.dramWait| - 1, 2 * Chunks(c));
  }

  lemma PageWorkLine(c: Config, tb: Tables, page: nat)
    requires Good(c) && page in tb.flashWait
    ensures PageWork(c, tb) == PageWork(c, LineTables(tb, page)) + 2 * Bursts(c)
  {
    hide Times, Bursts, Chunks;
    RemovedKey(tb.flashWait, page);
    TimesNext(|tb.flashWait| - 1, 2 * Bursts(c));
  }

  lemma PageWorkPart(c: Config, tb: Tables, tb': Tables)
    requires Good(c) && tb'.flashWait.Keys == tb.flashWait.Keys && tb'.dramWait.Keys == tb.dramWait.Keys
    ensures PageWork(c, tb') == PageWork(c, tb)
  {
    assert |tb'.flashWait| == |tb'.flashWait.Keys| && |tb'.dramWait| == |tb'.dramWait.Keys|;
  }

  /** Releasing an address may wake the queue, but frees the address. */
  lemma WokenWork(c: Config, k: Core, k': Core, f: Front, a: Addr)
    requires Good(c) && a in k.pendingFlash && k'.pendingFlash == k.pendingFlash - {a}
    ensures FrontWork(c, k', Woken(f)) <= FrontWork(c, k, f)
    ensures |k'.pendingFlash| + Flag(Woken(f).checkQueue) <= |k.pendingFlash| + Flag(f.checkQueue)
  {
    hide Times, TransactionWork, LookupWork;
    assert k.pendingFlash == k'.pendingFlash + {a};
  }

  /** A lookup uses up more work than it makes. */
  lemma LookedWork(c: Config, s: Ctl, s': Ctl)
    requires Good(c) && s.front.active.Some? && s'.front
             == s.front.(active := None, checkQueue := s'.front.checkQueue, pendingCount := s'.front.pendingCount)
    requires |s'.core.pendingFlash| + Flag(s'.front.checkQueue) <= |s.core.pendingFlash| + Flag(s.front.checkQueue)
    requires PageWork(c, s'.tables) + SendWork(s'.out) < PageWork(c, s.tables) + SendWork(s.out) + LookupWork(c)
    ensures Work(c, s') < Work(c, s)
  {
    hide Times, TransactionWork, LookupWork, PageWork, SendWork;
  }

  lemma HitWork(c: Config, s: Ctl, s': Ctl)
    requires Good(c) && s'.tables.flashWait == s.tables.flashWait && s'.tables.dramWait == s.tables.dramWait
    requires |s'.out.dramQueue| <= |s.out.dramQueue| + 1 && s'.out.flashQueue == s.out.flashQueue
    ensures PageWork(c, s'.tables) + SendWork(s'.out) < PageWork(c, s.tables) + SendWork(s.out) + LookupWork(c)
  {
    hide Bursts, Chunks, Times;
  }

  lemma MissWork(c: Config, s: Ctl, s': Ctl, t: Txn, a: Addr, slot: Slot, l: Line)
    requires Good(c) && s'.tables == MissTables(c, s.tables, t, a, slot, l)
    requires |s'.out.dramQueue| <= |s.out.dramQueue| + Bursts(c)
             && |s'.out.flashQueue| == |s.out.flashQueue| + Chunks(c)
    ensures PageWork(c, s'.tables) + SendWork(s'.out) < PageWork(c, s.tables) + SendWork(s.out) + LookupWork(c)
  {
    hide Bursts, Chunks, PageWork, MissTables;
    PageWorkMiss(c, s.tables, t, a, slot, l);
  }

  /** A release of `a`, or none. */
  ghost predicate Releases(k: Core, k': Core, f: Front, f': Front, a: Addr, last: bool) {
    && a in k.pendingFlash
    && if last then k'.pendingFlash == k.pendingFlash - {a} && f' == Woken(f)
       else k'.pendingFlash == k.pendingFlash && f' == f
  }

  lemma ReleaseWork(c: Config, s: Ctl, s': Ctl, a: Addr, last: bool)
    requires Good(c) && Releases(s.core, s'.core, s.front, s'.front, a, last)
    requires PageWork(c, s'.tables) + SendWork(s'.out) <= PageWork(c, s.tables) + SendWork(s.out)
    ensures Work(c, s') <= Work(c, s)
  {
    hide PageWork, SendWork, Times;
    if last { WokenWork(c, s.core, s'.core, s.front, a); }
  }

  lemma DispatchWork(c: Config, s: Ctl, i: nat)
    requires Good(c) && i < |s.front.queue| && s.front.active == None && s.front.delay == 0
    ensures Work(c, Dispatch(c, s, i)) < Work(c, s)
  {
    hide Times, LookupWork, PageWork, SendWork, Align;
    var s' := Dispatch(c, s, i);
    TimesNext(|s'.front.queue|, TransactionWork(c));
    Smaller(s.core.pendingFlash, Align(c, s.front.queue[i].addr));
  }

  /** The scan takes a transaction out of the queue, or switches its flag off. */
  lemma ScanWork(c: Config, s: Ctl)
    requires Good(c) && (s.front.delay == 0 ==> s.front.active == None)
    ensures Work(c, ScanQueue(c, s)) <= Work(c, s)
    ensures s.front.delay == 0 && s.front.checkQueue ==> Work(c, ScanQueue(c, s)) < Work(c, s)
    ensures s.front.delay > 0 || !s.front.checkQueue ==> ScanQueue(c, s) == s
    ensures ScanQueue(c, s).tables == s.tables && ScanQueue(c, s).out == s.out
  {
    hide Times, LookupWork, TransactionWork, PageWork, SendWork, Align, IsUnlocked, NumSets, Dispatch;
    if s.front.delay == 0 && s.front.checkQueue {
      var i := FirstUnlocked(c, s.core, s.front.queue, 0);
      if |s.core.pendingPages| < NumSets(c) && i < |s.front.queue| {
        hide Work;
        DispatchWork(c, s, i);
        DispatchKeeps(c, s, i);
      }
    }
  }

  lemma DispatchKeeps(c: Config, s: Ctl, i: nat)
    requires Good(c) && i < |s.front.queue|
    ensures Dispatch(c, s, i).tables == s.tables && Dispatch(c, s, i).out == s.out
  {
  }

  lemma Smaller<T>(x: set<T>, e: T)
    ensures |x + {e}| <= |x| + 1
  {
    if e in x { assert x + {e} == x; }
  }

  // Steps.

  /** A lookup asks for what it waits for. */
  ghost predicate Advances(c: Config, s: Ctl, s': Ctl, rd: seq<Req<DAddr, int>>, rf: seq<Req<FAddr, nat -> int>>)
    requires Good(c)
  {
    Asks(s.tables, s'.tables, rd, rf) && Work(c, s') < Work(c, s)
  }

  ghost predicate DramAdvances(c: Config, s: Ctl, s': Ctl, key: DAddr)
    requires Good(c)
  {
    DramSettles(s.tables, s'.tables, key) && Work(c, s') <= Work(c, s)
  }

  ghost predicate FlashAdvances(c: Config, s: Ctl, s': Ctl, key: FAddr)
    requires Good(c)
  {
    FlashSettles(s.tables, s'.tables, key) && Work(c, s') <= Work(c, s)
  }

  /** The lookup left the address pending, or released it. */
  ghost predicate LookedFront(s: Ctl, s': Ctl, a: Addr) {
    && s.front.active.Some?
    && if s'.core.pendingFlash == s.core.pendingFlash then s'.front == s.front.(active := None)
       else
         && a in s.core.pendingFlash && s'.core.pendingFlash == s.core.pendingFlash - {a}
         && s'.front == Woken(s.front).(active := None)
  }

  lemma LookedFlags(s: Ctl, s': Ctl, a: Addr)
    requires LookedFront(s, s', a)
    ensures |s'.core.pendingFlash| + Flag(s'.front.checkQueue) <= |s.core.pendingFlash| + Flag(s.front.checkQueue)
  {
    if s'.core.pendingFlash != s.core.pendingFlash { assert s.core.pendingFlash == s'.core.pendingFlash + {a}; }
  }

  lemma ReadHitAdvances(c: Config, s: Ctl, s': Ctl, t: Txn, a: Addr, slot: Slot)
    requires Good(c) && LookedFront(s, s', a) && s'.tables == ReadHitTables(s.tables, t, a, slot)
    requires s'.out.dramQueue == s.out.dramQueue + [Rd(DAddr(slot, a.off))] && s'.out.flashQueue == s.out.flashQueue
    ensures Advances(c, s, s', [Rd(DAddr(slot, a.off))], [])
  {
    hide Asks, Work, PageWork, SendWork, LookupWork;
    LookedFlags(s, s', a);
    HitWork(c, s, s');
    LookedWork(c, s, s');
    ReadHitAsks(s.tables, t, a, slot);
  }

  lemma DoneHitAdvances(c: Config, s: Ctl, s': Ctl, a: Addr, rd: seq<Req<DAddr, int>>)
    requires Good(c) && LookedFront(s, s', a) && s'.tables == s.tables && |rd| <= 1
    requires s'.out.dramQueue == s.out.dramQueue + rd && s'.out.flashQueue == s.out.flashQueue
    ensures Advances(c, s, s', rd, [])
  {
    hide Asks, Work, PageWork, SendWork, LookupWork;
    LookedFlags(s, s', a);
    HitWork(c, s, s');
    LookedWork(c, s, s');
    AsksNothing(s.tables, rd, []);
  }

  lemma MissAdvances(c: Config, s: Ctl, s': Ctl, t: Txn, a: Addr, slot: Slot, l: Line, rd: seq<Req<DAddr, int>>)
    requires Good(c) && LookedFront(s, s', a) && s'.tables == MissTables(c, s.tables, t, a, slot, l)
    requires rd == if l.dirty then PageReads(slot, Bursts(c)) else []
    requires s'.out.dramQueue == s.out.dramQueue + rd
             && s'.out.flashQueue == s.out.flashQueue + ChunkReads(a.page, Chunks(c))
    ensures Advances(c, s, s', rd, ChunkReads(a.page, Chunks(c)))
  {
    hide Asks, Work, PageWork, SendWork, LookupWork, MissTables, Bursts, Chunks;
    LookedFlags(s, s', a);
    MissWork(c, s, s', t, a, slot, l);
    LookedWork(c, s, s');
    MissAsks(c, s.tables, t, a, slot, l);
  }

  lemma CacheReadAdvances(c: Config, s: Ctl, s': Ctl, key: DAddr, a: Addr, active: set<Addr>)
    requires Good(c) && Locked(c, s.core, s.tables, active) && key.slot !in s.tables.dramWait
             && key in s.tables.dramPending
    requires Releases(s.core, s'.core, s.front, s'.front, a, true)
    requires s'.tables == s.tables.(dramPending := s.tables.dramPending - {key})
    requires s'.out.dramQueue == s.out.dramQueue && s'.out.flashQueue == s.out.flashQueue
    ensures DramAdvances(c, s, s', key)
  {
    hide Locked, DramSettles, Work, PageWork;
    CacheReadSettles(c, s.core, s.tables, key, active);
    PageWorkPart(c, s.tables, s'.tables);
    ReleaseWork(c, s, s', a, true);
  }

  lemma VictimPartAdvances(c: Config, s: Ctl, s': Ctl, key: DAddr, got: nat -> int)
    requires Good(c) && key.slot in s.tables.dramWait
    requires s' == s.(tables := s.tables.(dramWait :=
             s.tables.dramWait[key.slot := s.tables.dramWait[key.slot] - {key.off}],
                                          dramGot := s.tables.dramGot[key.slot := got]))
    ensures DramAdvances(c, s, s', key)
  {
    hide DramSettles, PageWork, FrontWork, SendWork;
    VictimPartSettles(s.tables, key, got);
    assert s'.tables.dramWait.Keys == s.tables.dramWait.Keys;
    PageWorkPart(c, s.tables, s'.tables);
  }

  lemma VictimAdvances(c: Config, s: Ctl, s': Ctl, key: DAddr, a: Addr, last: bool, active: set<Addr>)
    requires Good(c) && Locked(c, s.core, s.tables, active) && key.slot in s.tables.dramWait
    requires Releases(s.core, s'.core, s.front, s'.front, a, last) && s'.tables == VictimTables(s.tables, key.slot)
    requires s'.out.dramQueue == s.out.dramQueue && |s'.out.flashQueue| == |s.out.flashQueue| + Chunks(c)
    ensures DramAdvances(c, s, s', key)
  {
    hide Locked, DramSettles, Work, PageWork, VictimTables, Chunks;
    VictimSettles(c, s.core, s.tables, key, active);
    PageWorkVictim(c, s.tables, key.slot);
    ReleaseWork(c, s, s', a, last);
  }

  lemma LinePartAdvances(c: Config, s: Ctl, s': Ctl, key: FAddr, got: nat -> int)
    requires Good(c) && key.page in s.tables.flashWait
    requires s' == s.(tables := s.tables.(flashWait :=
             s.tables.flashWait[key.page := s.tables.flashWait[key.page] - {key.idx}],
                                          flashGot := s.tables.flashGot[key.page := got]))
    ensures FlashAdvances(c, s, s', key)
  {
    hide FlashSettles, PageWork, FrontWork, SendWork;
    LinePartSettles(s.tables, key, got);
    assert s'.tables.flashWait.Keys == s.tables.flashWait.Keys;
    PageWorkPart(c, s.tables, s'.tables);
  }

  lemma LineAdvances(c: Config, s: Ctl, s': Ctl, key: FAddr, a: Addr, last: bool)
    requires Good(c) && key.page in s.tables.flashWait
    requires Releases(s.core, s'.core, s.front, s'.front, a, last) && s'.tables == LineTables(s.tables, key.page)
    requires s'.out.flashQueue == s.out.flashQueue && |s'.out.dramQueue| == |s.out.dramQueue| + Bursts(c)
    ensures FlashAdvances(c, s, s', key)
  {
    hide FlashSettles, Work, PageWork, LineTables, Bursts;
    LineSettles(s.tables, key);
    PageWorkLine(c, s.tables, key.page);
    ReleaseWork(c, s, s', a, last);
  }

  /** An early callback leaves expectations and work as they were. */
  lemma CriticalAdvances(c: Config, s: Ctl, s': Ctl)
    requires Good(c) && s'.core.pendingFlash == s.core.pendingFlash && s'.front == s.front
    requires s'.tables == s.tables.(flashPending := s'.tables.flashPending)
    requires s'.out.dramQueue == s.out.dramQueue && s'.out.flashQueue == s.out.flashQueue
    ensures Asks(s.tables, s'.tables, [], []) && Work(c, s') == Work(c, s)
  {
    hide Times;
  }

  /** Sending a request on leaves only the serving of it. */
  lemma SentWork(c: Config, s: Ctl, dramTakes: bool, flashTakes: bool)
    requires Good(c)
    ensures Work(c, Send(s, dramTakes, flashTakes)) + 2 * Flag(dramTakes && s.out.dramQueue != [])
            + 2 * Flag(flashTakes && s.out.flashQueue != []) + Flag(s.front.delay > 0) == Work(c, s)
    ensures Send(s, dramTakes, flashTakes).tables == s.tables
  {
    hide Times, LookupWork, TransactionWork, PageWork;
  }

  lemma ArrivalWork(c: Config, s: Ctl, s': Ctl)
    requires Good(c) && s'.core == s.core && s'.tables == s.tables
    requires s'.out.dramQueue == s.out.dramQueue && s'.out.flashQueue == s.out.flashQueue
    requires s'.front == s.front || (|s'.front.queue| == |s.front.queue| + 1 && s'.front.active == s.front.active
             && s'.front.delay == s.front.delay)
    ensures Work(c, s') <= Work(c, s) + TransactionWork(c) + 1
  {
    hide Times, LookupWork, TransactionWork, PageWork;
    TimesNext(|s.front.queue|, TransactionWork(c));
  }
}
