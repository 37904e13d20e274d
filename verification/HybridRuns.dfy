/**
 Whole runs of the controller with its two memories and its callers.  The environment chooses the
 order of everything: when requests and prefetches arrive, which outstanding request a memory serves
 next, when a critical line comes early, and whether a memory takes the next request.
 */
module HybridRuns {
  import opened Basics
  import opened HybridGeometry
  import opened InOrderMemory
  import opened HybridController
  import opened HybridLocks
  import opened HybridLockSteps
  import opened HybridMissSteps
  import opened HybridCallbacks
  import opened HybridLedger
  import opened HybridContents
  import opened HybridReads
  import opened HybridInvariant
  import opened HybridReturns
  import opened HybridSteps
  import opened HybridReplies
  import opened HybridProgress
  import opened Arithmetic

  datatype Sys = Sys(ctl: Ctl, dram: Dram, flash: Flash, callers: Callers)

  datatype Event =
    | Accepts(isWrite: bool, addr: nat, data: int)
    | Prefetches(addr: nat)
    | Ticks(dramTakes: bool, flashTakes: bool)
    | DramServes(i: nat)
    | FlashServes(i: nat)
    | CriticalComes(page: nat, i: nat)

  /** The flash may send the missed burst of a page early, once, while the page is still being read. */
  ghost predicate CriticalEnabled(c: Config, y: Sys, page: nat, i: nat)
    requires Good(c)
  {
    var t := y.ctl.tables;
    && page in t.flashPending && !t.flashPending[page].callbackSent && page in t.flashWait && page in t.flashGot
    && var chunk := ChunkOf(c, t.flashPending[page].flash.off);
       (chunk in t.flashWait[page] ==> Servable(y.flash.q, i) && y.flash.q[i] == Rd(FAddr(page, chunk)))
  }

  /** Each memory serves any request it holds, except that requests to one address are served in order. */
  ghost predicate Enabled(c: Config, y: Sys, e: Event)
    requires Good(c)
  {
    match e
    case DramServes(i) => Servable(y.dram.q, i)
    case FlashServes(i) => Servable(y.flash.q, i)
    case CriticalComes(page, i) => CriticalEnabled(c, y, page, i)
    case _ => true
  }

  /** The burst the flash sends early: read from the array, or already delivered with its chunk. */
  ghost function CriticalBurst(c: Config, y: Sys, page: nat, i: nat): nat -> int
    requires Good(c) && CriticalEnabled(c, y, page, i)
  {
    var t := y.ctl.tables;
    var chunk := ChunkOf(c, t.flashPending[page].flash.off);
    if chunk in t.flashWait[page] then y.flash.mem(FAddr(page, chunk)) else t.flashGot[page]
  }

  ghost function Taken<K, V>(d: Device<K, V>, q: seq<Req<K, V>>, takes: bool): Device<K, V> {
    if takes && q != [] then d.(q := d.q + [q[0]]) else d
  }

  ghost function Next(c: Config, y: Sys, e: Event): Outcome<Sys>
    requires Good(c) && Enabled(c, y, e)
  {
    match e
    case Accepts(isWrite, addr, data) =>
      Fine(y.(ctl := AddTransaction(y.ctl, isWrite, addr, |y.callers.hist|, data),
          callers := Asked(c, y.callers, isWrite, addr, data)))
    case Prefetches(addr) => Fine(y.(ctl := AddPrefetch(y.ctl, addr)))
    case Ticks(dramTakes, flashTakes) =>
      var s :- Advance(c, y.ctl);
      Fine(y.(ctl := Send(s, dramTakes, flashTakes), dram := Taken(y.dram, s.out.dramQueue, dramTakes),
              flash := Taken(y.flash, s.out.flashQueue, flashTakes)))
    case DramServes(i) =>
      var r := y.dram.q[i];
      var s :- if r.Rd? then DramReadCallback(c, y.ctl, r.key, y.dram.mem(r.key)) else Fine(y.ctl);
      Fine(y.(ctl := s, dram := Serve(y.dram, i)))
    case FlashServes(i) =>
      var r := y.flash.q[i];
      var s :- if r.Rd? then FlashReadCallback(c, y.ctl, r.key, y.flash.mem(r.key)) else Fine(y.ctl);
      Fine(y.(ctl := s, flash := Serve(y.flash, i)))
    case CriticalComes(page, i) =>
      var s :- FlashCriticalLineCallback(y.ctl, page,
          CriticalBurst(c, y, page, i)(y.ctl.tables.flashPending[page].flash.off));
      Fine(y.(ctl := s))
  }

  /** The memories with the requests the controller is about to send. */
  ghost function Ahead(y: Sys): Memories {
    Memories(Submit(y.dram, y.ctl.out.dramQueue), Submit(y.flash, y.ctl.out.flashQueue))
  }

  ghost predicate Consistent(c: Config, y: Sys, g: Aux)
    requires Good(c)
  {
    Whole(c, y.ctl, Ahead(y), y.callers, g) && Awaited(y.ctl.tables, Ahead(y).dram, Ahead(y).flash)
  }

  // Work.

  function TotalWork(c: Config, y: Sys): nat
    requires Good(c)
  {
    Work(c, y.ctl) + |y.dram.q| + |y.flash.q|
  }

  function ArrivalCost(c: Config): nat
    requires Good(c)
  {
    TransactionWork(c) + 1
  }

  predicate IsArrival(e: Event) { e.Accepts? || e.Prefetches? }

  /** A cycle in which the controller has nothing to look up, to scan or to send. */
  ghost predicate IdleTick(y: Sys, dramTakes: bool, flashTakes: bool) {
    && y.ctl.front.delay == 0 && y.ctl.front.active == None && !y.ctl.front.checkQueue
    && (dramTakes ==> y.ctl.out.dramQueue == []) && (flashTakes ==> y.ctl.out.flashQueue == [])
  }

  /** A memory serves a request, or the controller has something to do. */
  ghost predicate Effective(y: Sys, e: Event) {
    e.DramServes? || e.FlashServes? || (e.Ticks? && !IdleTick(y, e.dramTakes, e.flashTakes))
  }

  /** Arrivals bring work; every other event leaves it, or uses some of it up. */
  ghost predicate Spends(c: Config, y: Sys, e: Event, y': Sys)
    requires Good(c)
  {
    TotalWork(c, y') + Flag(Effective(y, e)) <= TotalWork(c, y) + if IsArrival(e) then ArrivalCost(c) else 0
  }

  // Sending requests on changes nothing.

  lemma TakenAhead<K, V>(d: Device<K, V>, q: seq<Req<K, V>>, takes: bool)
    ensures Submit(Taken(d, q, takes), TailIf(q, takes)) == Submit(d, q)
  {
    if takes && q != [] {
      assert (d.q + [q[0]]) + q[1..] == d.q + q;
    }
  }

  lemma SubmitTwice<K, V>(d: Device<K, V>, q: seq<Req<K, V>>, r: seq<Req<K, V>>)
    ensures Submit(d, q + r) == Submit(Submit(d, q), r)
  {
    assert d.q + (q + r) == (d.q + q) + r;
  }

  lemma ServeAhead<K, V>(d: Device<K, V>, q: seq<Req<K, V>>, i: nat)
    requires Servable(d.q, i)
    ensures Servable(Submit(d, q).q, i) && Submit(d, q).q[i] == d.q[i]
    ensures Serve(Submit(d, q), i) == Submit(Serve(d, i), q)
  {
    assert Without(d.q + q, i) == Without(d.q, i) + q;
  }

  // Steps.

  lemma TickSafe(c: Config, y: Sys, g: Aux, dramTakes: bool, flashTakes: bool) returns (y': Sys, g': Aux)
    requires Good(c) && Consistent(c, y, g)
    ensures Next(c, y, Ticks(dramTakes, flashTakes)) == Fine(y') && Consistent(c, y', g')
    ensures Spends(c, y, Ticks(dramTakes, flashTakes), y')
  {
    hide Whole, ProcessTransaction, ScanQueue, Submit, Taken, SubmitBoth, Awaited, Spends, Work, Send, Asks;
    var s1, m1 := y.ctl, Ahead(y);
    g' := g;
    if y.ctl.front.active.Some? && y.ctl.front.delay == 0 {
      var s0, rd, rf;
      s0, rd, rf, g' := Lookup(c, y.ctl, Ahead(y), y.callers, g, y.ctl.front.active.value);
      s1 := s0.(front := Looked(s0.front));
      m1 := SubmitBoth(Ahead(y), rd, rf);
      SubmitTwice(y.dram, y.ctl.out.dramQueue, rd);
      SubmitTwice(y.flash, y.ctl.out.flashQueue, rf);
      BothAhead(Ahead(y), rd, rf);
      AskedAwaited(y.ctl.tables, s1.tables, Ahead(y).dram, Ahead(y).flash, rd, rf);
    }
    ScanStep(c, s1, m1, y.callers, g');
    ScanWork(c, s1);
    var s2 := ScanQueue(c, s1);
    var s3 := Send(s2, dramTakes, flashTakes);
    SendQueues(s2, dramTakes, flashTakes);
    y' := y.(ctl := s3, dram := Taken(y.dram, s2.out.dramQueue, dramTakes),
        flash := Taken(y.flash, s2.out.flashQueue, flashTakes));
    TakenAhead(y.dram, s2.out.dramQueue, dramTakes);
    TakenAhead(y.flash, s2.out.flashQueue, flashTakes);
    SendWhole(c, s2, m1, y.callers, g', dramTakes, flashTakes);
    TickSpends(c, y, s1, y', dramTakes, flashTakes);
  }

  lemma SendQueues(s: Ctl, dramTakes: bool, flashTakes: bool)
    ensures var s' := Send(s, dramTakes, flashTakes);
            && s'.out.dramQueue == TailIf(s.out.dramQueue, dramTakes)
               && s'.out.flashQueue == TailIf(s.out.flashQueue, flashTakes)
            && s'.tables == s.tables
  {
  }

  lemma TickSpends(c: Config, y: Sys, s1: Ctl, y': Sys, dramTakes: bool, flashTakes: bool)
    requires Good(c) && (s1.front.delay == 0 ==> s1.front.active == None)
    requires if y.ctl.front.active.Some? && y.ctl.front.delay == 0 then Work(c, s1) < Work(c, y.ctl) else s1 == y.ctl
    requires var s2 := ScanQueue(c, s1);
             && y'.ctl == Send(s2, dramTakes, flashTakes) && y'.dram == Taken(y.dram, s2.out.dramQueue, dramTakes)
             && y'.flash == Taken(y.flash, s2.out.flashQueue, flashTakes)
    ensures Spends(c, y, Ticks(dramTakes, flashTakes), y')
  {
    hide Work, ScanQueue, Send;
    ScanWork(c, s1);
    SentWork(c, ScanQueue(c, s1), dramTakes, flashTakes);
  }

  lemma BothAhead(m: Memories, rd: seq<Req<DAddr, int>>, rf: seq<Req<FAddr, nat -> int>>)
    ensures SubmitBoth(m, rd, rf) == Memories(Submit(m.dram, rd), Submit(m.flash, rf))
  {
  }

  lemma SendWhole(c: Config, s: Ctl, m: Memories, u: Callers, g: Aux, dramTakes: bool, flashTakes: bool)
    requires Good(c) && Whole(c, s, m, u, g)
    ensures Whole(c, Send(s, dramTakes, flashTakes), m, u, g)
  {
    hide Invariant, Align, IsUnlocked;
    FrontStep(c, s, Send(s, dramTakes, flashTakes), m, u, g);
  }

  lemma DramServesSafe(c: Config, y: Sys, g: Aux, i: nat) returns (y': Sys)
    requires Good(c) && Consistent(c, y, g) && Servable(y.dram.q, i)
    ensures Next(c, y, DramServes(i)) == Fine(y') && Consistent(c, y', g)
    ensures Spends(c, y, DramServes(i), y')
  {
    hide Whole, DramReadCallback, Submit, SubmitBoth, Serve, DramAnswered, Awaited, Work, DramSettles;
    var m := Ahead(y);
    ServeAhead(y.dram, y.ctl.out.dramQueue, i);
    ServedOne(y.dram, i);
    var m1 := m.(dram := Serve(m.dram, i));
    DramServedWhole(c, y.ctl, m, y.callers, g, i);
    y' := y.(dram := Serve(y.dram, i));
    if y.dram.q[i].Rd? {
      var key := y.dram.q[i].key;
      SubmitMem(y.dram, y.ctl.out.dramQueue);
      var s', rf := DramReply(c, y.ctl, m1, y.callers, g, key, y.dram.mem(key));
      y' := y'.(ctl := s');
      SubmitTwice(y.flash, y.ctl.out.flashQueue, rf);
      SubmitNone(m1.dram);
      BothAhead(m1, [], rf);
      DramServedAwaited(y.ctl.tables, s'.tables, m.dram, m.flash, i);
      AsksNothing(s'.tables, [], rf);
      AskedAwaited(s'.tables, s'.tables, m1.dram, m1.flash, [], rf);
    } else {
      DramServedAwaited(y.ctl.tables, y.ctl.tables, m.dram, m.flash, i);
    }
  }

  lemma ServedOne<K, V>(d: Device<K, V>, i: nat)
    requires i < |d.q|
    ensures |Serve(d, i).q| == |d.q| - 1
  {
  }

  lemma SubmitMem<K, V>(d: Device<K, V>, q: seq<Req<K, V>>)
    ensures Submit(d, q).mem == d.mem
  {
  }

  lemma SubmitNone<K, V>(d: Device<K, V>)
    ensures Submit(d, []) == d
  {
    assert d.q + [] == d.q;
  }

  lemma DramServedWhole(c: Config, s: Ctl, m: Memories, u: Callers, g: Aux, i: nat)
    requires Good(c) && Whole(c, s, m, u, g) && Servable(m.dram.q, i)
    ensures var m' := m.(dram := Serve(m.dram, i));
            && Whole(c, s, m', u, g)
            && (m.dram.q[i].Rd? ==> DramAnswered(s, m', u, g, m.dram.q[i].key, m.dram.mem(m.dram.q[i].key)))
  {
    hide Locked, Accounted, Contents, DramPromised, FlashPromised, Gathered, Ordered, ReadsPromised, ImageOf, Align,
      IsUnlocked, Serve, DramReadOk;
    DramServedFaithful(c, s, m, u, g, i);
    DramServed(s.tables, g.prom, u.hist, m.dram, i);
  }

  lemma FlashServedWhole(c: Config, s: Ctl, m: Memories, u: Callers, g: Aux, i: nat)
    requires Good(c) && Whole(c, s, m, u, g) && Servable(m.flash.q, i)
    ensures var m' := m.(flash := Serve(m.flash, i));
            && Whole(c, s, m', u, g)
            && (m.flash.q[i].Rd? ==> FlashAnswered(c, s, m', g, m.flash.q[i].key, m.flash.mem(m.flash.q[i].key)))
  {
    hide Locked, Accounted, Contents, DramPromised, FlashPromised, Gathered, Ordered, ReadsPromised, ImageOf, Align,
      IsUnlocked, Serve, FlashReadOk;
    FlashServedFaithful(c, s, m, u, g, i);
    FlashServed(c, s.tables, g.prom, m.flash, i);
  }

  lemma FlashServesSafe(c: Config, y: Sys, g: Aux, i: nat) returns (y': Sys)
    requires Good(c) && Consistent(c, y, g) && Servable(y.flash.q, i)
    ensures Next(c, y, FlashServes(i)) == Fine(y') && Consistent(c, y', g)
    ensures Spends(c, y, FlashServes(i), y')
  {
    hide Whole, FlashReadCallback, Submit, SubmitBoth, Serve, FlashAnswered, Awaited, Work, FlashSettles;
    var m := Ahead(y);
    ServeAhead(y.flash, y.ctl.out.flashQueue, i);
    ServedOne(y.flash, i);
    var m1 := m.(flash := Serve(m.flash, i));
    FlashServedWhole(c, y.ctl, m, y.callers, g, i);
    y' := y.(flash := Serve(y.flash, i));
    if y.flash.q[i].Rd? {
      var key := y.flash.q[i].key;
      SubmitMem(y.flash, y.ctl.out.flashQueue);
      var s', rd := FlashReply(c, y.ctl, m1, y.callers, g, key, y.flash.mem(key));
      y' := y'.(ctl := s');
      SubmitTwice(y.dram, y.ctl.out.dramQueue, rd);
      SubmitNone(m1.flash);
      BothAhead(m1, rd, []);
      FlashServedAwaited(y.ctl.tables, s'.tables, m.dram, m.flash, i);
      AsksNothing(s'.tables, rd, []);
      AskedAwaited(s'.tables, s'.tables, m1.dram, m1.flash, rd, []);
    } else {
      FlashServedAwaited(y.ctl.tables, y.ctl.tables, m.dram, m.flash, i);
    }
  }

  lemma CriticalSafe(c: Config, y: Sys, g: Aux, page: nat, i: nat) returns (y': Sys)
    requires Good(c) && Consistent(c, y, g) && Enabled(c, y, CriticalComes(page, i))
    ensures Next(c, y, CriticalComes(page, i)) == Fine(y') && Consistent(c, y', g)
    ensures Spends(c, y, CriticalComes(page, i), y')
  {
    hide Whole, FlashCriticalLineCallback, Submit, ChunkOf, FlashReadOk, Awaited, Asks, Work;
    var m := Ahead(y);
    var t := y.ctl.tables;
    var chunk := ChunkOf(c, t.flashPending[page].flash.off);
    if chunk in t.flashWait[page] {
      ServeAhead(y.flash, y.ctl.out.flashQueue, i);
      SubmitMem(y.flash, y.ctl.out.flashQueue);
      FlashServedWhole(c, y.ctl, m, y.callers, g, i);
    }
    var s' := CriticalReply(c, y.ctl, m, y.callers, g, page, CriticalBurst(c, y, page, i));
    y' := y.(ctl := s');
    AskedAwaited(t, s'.tables, m.dram, m.flash, [], []);
    SubmitNone(m.dram);
    SubmitNone(m.flash);
  }

  lemma ArrivalSafe(c: Config, y: Sys, g: Aux, e: Event) returns (y': Sys)
    requires Good(c) && Consistent(c, y, g) && IsArrival(e)
    ensures Next(c, y, e) == Fine(y') && Consistent(c, y', g)
    ensures Spends(c, y, e, y')
  {
    hide Whole, Submit, Awaited, Work, ArrivalCost;
    y' := Next(c, y, e).value;
    if e.Accepts? {
      AcceptStep(c, y.ctl, Ahead(y), y.callers, g, e.isWrite, e.addr, e.data);
    } else {
      PrefetchStep(c, y.ctl, Ahead(y), y.callers, g, e.addr);
    }
    ArrivalSpends(c, y.ctl, y'.ctl);
  }

  lemma ArrivalSpends(c: Config, s: Ctl, s': Ctl)
    requires Good(c) && s'.core == s.core && s'.tables == s.tables
    requires s'.out.dramQueue == s.out.dramQueue && s'.out.flashQueue == s.out.flashQueue
    requires s'.front == s.front || (|s'.front.queue| == |s.front.queue| + 1 && s'.front.active == s.front.active
             && s'.front.delay == s.front.delay)
    ensures Work(c, s') <= Work(c, s) + ArrivalCost(c)
  {
    hide Work, TransactionWork;
    ArrivalWork(c, s, s');
  }

  /** Every enabled step succeeds and leads to a consistent state. */
  lemma StepSafe(c: Config, y: Sys, g: Aux, e: Event) returns (y': Sys, g': Aux)
    requires Good(c) && Consistent(c, y, g) && Enabled(c, y, e)
    ensures Next(c, y, e) == Fine(y') && Consistent(c, y', g')
    ensures Spends(c, y, e, y')
  {
    hide Consistent, Spends, Next;
    g' := g;
    match e
    case Accepts(_, _, _) => y' := ArrivalSafe(c, y, g, e);
    case Prefetches(_) => y' := ArrivalSafe(c, y, g, e);
    case Ticks(dramTakes, flashTakes) => y', g' := TickSafe(c, y, g, dramTakes, flashTakes);
    case DramServes(i) => y' := DramServesSafe(c, y, g, i);
    case FlashServes(i) => y' := FlashServesSafe(c, y, g, i);
    case CriticalComes(page, i) => y' := CriticalSafe(c, y, g, page, i);
  }

  // Runs.

  ghost predicate Run(c: Config, y: Sys, es: seq<Event>, z: Sys)
    requires Good(c)
    decreases |es|
  {
    if es == [] then z == y
    else Enabled(c, y, es[0]) && Next(c, y, es[0]).Fine? && Run(c, Next(c, y, es[0]).value, es[1..], z)
  }

  /** What the system holds at first: a cached page is read from its line, any other from flash. */
  ghost predicate AgreesAt(c: Config, cache: Cache, y: Sys, page: nat, o: nat)
    requires Good(c)
  {
    var v, inFlash := y.callers.flat(Addr(page, o)), y.flash.mem(FAddr(page, ChunkOf(c, o)))(o);
    && (forall slot :: IsSlot(c, slot) && Caches(c, cache, slot, page) ==>
          y.dram.mem(DAddr(slot, o)) == v && (!LineIn(cache, slot).dirty ==> inFlash == v))
    && (Absent(c, cache, page) ==> inFlash == v)
  }

  ghost predicate Agrees(c: Config, cache: Cache, y: Sys)
    requires Good(c)
  {
    forall page: nat, o: nat :: o < Bursts(c) ==> AgreesAt(c, cache, y, page, o)
  }

  ghost predicate Starts(c: Config, y: Sys)
    requires Good(c)
  {
    && y.ctl == Ctl(Core(y.ctl.core.cache, {}, map[], map[], map[], map[]),
       Tables(map[], map[], map[], map[], map[], map[]),
                    Front([], None, 0, true, 0, y.ctl.front.now), Out([], [], [], [], {}))
    && Unheld(c, y.ctl.core.cache)
    && y.dram.q == [] && y.flash.q == [] && y.callers.hist == []
    && Agrees(c, y.ctl.core.cache, y)
  }

  lemma {:induction false} NoLocks(cache: Cache, set_: nat, n: nat)
    requires forall w :: 0 <= w < n ==> LineIn(cache, Slot(set_, w)).lockCount == 0
    ensures SumLocks(cache, set_, n) == 0
  {
    if n > 0 { NoLocks(cache, set_, n - 1); }
  }

  lemma StartLocked(c: Config, cache: Cache)
    requires Good(c) && Unheld(c, cache)
    ensures Locked(c, Core(cache, {}, map[], map[], map[], map[]), Tables(map[], map[], map[], map[], map[], map[]), {})
  {
    hide SetOf, TagOf, PageOf, NumSets, Align;
    forall i: nat | i < NumSets(c) ensures SetCounted(c, cache, map[], i) {
      forall w | 0 <= w < c.setSize ensures LineIn(cache, Slot(i, w)).lockCount == 0 { assert IsSlot(c, Slot(i, w)); }
      NoLocks(cache, i, c.setSize);
    }
    forall slot | IsSlot(c, slot) ensures LineShape(LineIn(cache, slot), Holders(map[], slot)) {
      assert Holders(map[], slot) == {};
    }
  }

  lemma StartConsistent(c: Config, y: Sys) returns (g: Aux)
    requires Good(c) && Starts(c, y)
    ensures Consistent(c, y, g)
  {
    g := Aux(y.callers.flat, (x: Addr) => Promise(NOTHING, NOTHING));
    StartLocked(c, y.ctl.core.cache);
    assert Accounted(c, [], LedgerOf(y.ctl)) by { hide Align; }
    StartContents(c, y, g);
    assert Ordered(c, [], [], g.spec, y.callers.flat) by { hide Align; assert Reqs(c, []) == []; }
    hide Locked, Accounted, Contents, Ordered, Align, IsUnlocked, ImageOf;
    SubmitNone(y.dram);
    SubmitNone(y.flash);
  }

  lemma StartContents(c: Config, y: Sys, g: Aux)
    requires Good(c) && Starts(c, y) && g.spec == y.callers.flat
    ensures Contents(c, y.ctl.core, ImageOf(c, y.dram, y.flash), g.prom, g.spec)
  {
    hide SetOf, TagOf, NumSets, Bursts, ChunkOf, Unheld, Caches, Absent;
    var k, i := y.ctl.core, ImageOf(c, y.dram, y.flash);
    forall page: nat, o: nat | o < Bursts(c) ensures BurstOk(c, k, i, g.prom, page, o, g.spec(Addr(page, o))) {
      assert AgreesAt(c, k.cache, y, page, o);
      ImageFlash(c, Memories(y.dram, y.flash), Addr(page, o));
      AfterIrrelevant(y.flash.mem, y.flash.q, FAddr(page, ChunkOf(c, o)));
      forall slot ensures CachedOk(c, k, i, slot, page, o, g.spec(Addr(page, o))) {
        assert i.dram(DAddr(slot, o)) == y.dram.mem(DAddr(slot, o));
      }
    }
  }

  lemma {:induction false} RunSafe(c: Config, y: Sys, g: Aux, es: seq<Event>, z: Sys) returns (g': Aux)
    requires Good(c) && Consistent(c, y, g) && Run(c, y, es, z)
    ensures Consistent(c, z, g')
    decreases |es|
  {
    hide Consistent, Next, Enabled;
    g' := g;
    if es != [] {
      var y1;
      y1, g' := StepSafe(c, y, g, es[0]);
      g' := RunSafe(c, y1, g', es[1..], z);
    }
  }

  /** Some run leads from a start to the state. */
  ghost predicate Reaches(c: Config, start: Sys, es: seq<Event>, y: Sys)
    requires Good(c)
  {
    Starts(c, start) && Run(c, start, es, y)
  }

  lemma Reached(c: Config, start: Sys, es: seq<Event>, y: Sys) returns (g: Aux)
    requires Good(c) && Reaches(c, start, es, y)
    ensures Consistent(c, y, g)
  {
    hide Consistent, Starts;
    g := StartConsistent(c, start);
    g := RunSafe(c, start, g, es, y);
  }

  // Theorems.

  /** No assertion and no abort of the controller or its logger is ever reached. */
  lemma NeverAborts(c: Config, start: Sys, es: seq<Event>, y: Sys, e: Event)
    requires Good(c) && Reaches(c, start, es, y) && Enabled(c, y, e)
    ensures Next(c, y, e).Fine?
  {
    hide Consistent, Reaches, Next, Enabled;
    var g := Reached(c, start, es, y);
    var y', g' := StepSafe(c, y, g, e);
  }

  /** The burst a caller's address stands for: above 4 GB the address space continues where it was cut at 3.5 GB. */
  ghost function BurstAt(c: Config, addr: nat): Addr
    requires Good(c)
  {
    Align(c, if addr >= 0x1_0000_0000 then addr - 0x2000_0000 else addr)
  }

  /** The latest of the first n requests that wrote the burst, or its initial contents. */
  ghost function Latest(c: Config, mem0: Addr -> int, hist: seq<Request>, n: nat, a: Addr): int
    requires Good(c) && n <= |hist|
  {
    if n == 0 then mem0(a)
    else
      var r := hist[n - 1];
      if r.isWrite && !(0xE000_0000 <= r.addr <= 0xFFFF_FFFF) && BurstAt(c, r.addr) == a then r.data
      else Latest(c, mem0, hist, n - 1, a)
  }

  ghost predicate Truthful(c: Config, mem0: Addr -> int, u: Callers)
    requires Good(c)
  {
    && (forall a :: u.flat(a) == Latest(c, mem0, u.hist, |u.hist|, a))
    && (forall i :: 0 <= i < |u.hist| ==>
          u.hist[i].answer == Latest(c, mem0, u.hist, i, BurstAt(c, u.hist[i].addr)))
  }

  lemma {:induction false} LatestPrefix(c: Config, mem0: Addr -> int, hist: seq<Request>, r: Request, n: nat, a: Addr)
    requires Good(c) && n <= |hist|
    ensures Latest(c, mem0, hist + [r], n, a) == Latest(c, mem0, hist, n, a)
  {
    hide Align;
    if n > 0 { LatestPrefix(c, mem0, hist, r, n - 1, a); }
  }

  lemma AskedTruthful(c: Config, mem0: Addr -> int, u: Callers, isWrite: bool, addr: nat, data: int)
    requires Good(c) && Truthful(c, mem0, u)
    ensures Truthful(c, mem0, Asked(c, u, isWrite, addr, data))
  {
    hide Align;
    var u' := Asked(c, u, isWrite, addr, data);
    var r := u'.hist[|u.hist|];
    forall a
      ensures u'.flat(a) == Latest(c, mem0, u'.hist, |u'.hist|, a)
    {
      LatestPrefix(c, mem0, u.hist, r, |u.hist|, a);
    }
    forall i | 0 <= i < |u'.hist|
      ensures u'.hist[i].answer == Latest(c, mem0, u'.hist, i, BurstAt(c, u'.hist[i].addr))
    {
      LatestPrefix(c, mem0, u.hist, r, i, BurstAt(c, u'.hist[i].addr));
    }
  }

  lemma NextTruthful(c: Config, mem0: Addr -> int, y: Sys, e: Event)
    requires Good(c) && Truthful(c, mem0, y.callers) && Enabled(c, y, e) && Next(c, y, e).Fine?
    ensures Truthful(c, mem0, Next(c, y, e).value.callers)
  {
    hide Truthful, Advance, DramReadCallback, FlashReadCallback, FlashCriticalLineCallback, Asked, Send,
      AddTransaction, AddPrefetch, CriticalEnabled, CriticalBurst;
    if e.Accepts? { AskedTruthful(c, mem0, y.callers, e.isWrite, e.addr, e.data); }
  }

  lemma {:induction false} RunTruthful(c: Config, mem0: Addr -> int, y: Sys, es: seq<Event>, z: Sys)
    requires Good(c) && Truthful(c, mem0, y.callers) && Run(c, y, es, z)
    ensures Truthful(c, mem0, z.callers)
    decreases |es|
  {
    hide Truthful, Next, Enabled;
    if es != [] {
      NextTruthful(c, mem0, y, es[0]);
      RunTruthful(c, mem0, Next(c, y, es[0]).value, es[1..], z);
    }
  }

  /**
   The cache is transparent.  Every callback reports the caller's own address, and a read returns the
   latest write to its burst among the requests accepted before it.
   */
  lemma RefinesFlatMemory(c: Config, start: Sys, es: seq<Event>, y: Sys, i: nat)
    requires Good(c) && Reaches(c, start, es, y) && i < |y.ctl.out.done|
    ensures var d, hist := y.ctl.out.done[i], y.callers.hist;
            && d.id < |hist| && d.addr == hist[d.id].addr && d.isWrite == hist[d.id].isWrite
            && (!d.isWrite && !(0xE000_0000 <= d.addr <= 0xFFFF_FFFF) ==>
                  d.value == Latest(c, start.callers.flat, hist, d.id, BurstAt(c, d.addr)))
  {
    hide Run, Locked, Faithful, Once, Logged, Align, Awake, Latest, Starts;
    var g := Reached(c, start, es, y);
    assert Answers(y.callers.hist, y.ctl.out.done[i]);
    StartTruthful(c, start);
    RunTruthful(c, start.callers.flat, start, es, y);
  }

  /**
   A request to 3.5 GB up to 4 GB is called back at once and goes no further; any other one joins the
   queue, at the address its burst has in the memory, and is not called back yet.
   */
  lemma QueuedOrDropped(c: Config, y: Sys, isWrite: bool, addr: nat, data: int)
    requires Good(c)
    ensures var y' := Next(c, y, Accepts(isWrite, addr, data)).value;
            var id := |y.callers.hist|;
            if 0xE000_0000 <= addr <= 0xFFFF_FFFF then
              && y'.ctl.front.queue == y.ctl.front.queue
              && y'.ctl.out.done == y.ctl.out.done + [Completion(isWrite, id, addr, data)]
            else
              && |y'.ctl.front.queue| == |y.ctl.front.queue| + 1
                 && y'.ctl.front.queue[..|y.ctl.front.queue|] == y.ctl.front.queue
              && y'.ctl.out.done == y.ctl.out.done
              && var t := y'.ctl.front.queue[|y.ctl.front.queue|];
                 && t.kind == (if isWrite then DataWrite else DataRead) && t.id == id && t.data == data
                 && Align(c, t.addr) == BurstAt(c, addr)
  {
    hide Align;
  }

  /** Two addresses that are not dropped stay different. */
  lemma RemapInjective(x: nat, y: nat)
    requires !(0xE000_0000 <= x <= 0xFFFF_FFFF) && !(0xE000_0000 <= y <= 0xFFFF_FFFF) && x != y
    ensures Remap(x) != Remap(y)
  {
  }

  lemma StartTruthful(c: Config, y: Sys)
    requires Good(c) && Starts(c, y)
    ensures Truthful(c, y.callers.flat, y.callers)
  {
  }

  /** Nothing is on its way to or from the memories, and the controller has nothing to do. */
  ghost predicate Quiescent(y: Sys) {
    && y.dram.q == [] && y.flash.q == [] && y.ctl.out.dramQueue == [] && y.ctl.out.flashQueue == []
    && y.ctl.front.active == None && !y.ctl.front.checkQueue
  }

  /** With no read on its way no operation is under way. */
  lemma NoOperations(c: Config, k: Core, tb: Tables, d: Dram, f: Flash, active: set<Addr>)
    requires Good(c) && Locked(c, k, tb, active) && Awaited(tb, d, f) && d.q == [] && f.q == []
    ensures k.ops == map[]
  {
    hide Locked, DramExpected, FlashExpected;
    if k.ops != map[] {
      var a :| a in k.ops;
      OpWaits(c, k, tb, a, active);
    }
  }

  /** With no operation under way and none looked up every lock is free. */
  lemma NothingLocked(c: Config, k: Core, tb: Tables, a: Addr)
    requires Good(c) && Locked(c, k, tb, {}) && k.ops == map[]
    ensures k.pendingFlash == {} && k.pendingPages == map[] && IsUnlocked(c, k, a)
  {
    hide Tabled, UniqueTags, SetOf;
    assert forall p :: p in k.owner ==> Owned(c, k.ops, k.owner[p], p, k.pendingPages[p]);
    assert k.pendingPages.Keys == {};
    PageSplit(c, a.page);
    var i := SetOf(c, a.page);
    assert SetCounted(c, k.cache, k.setCounter, i);
    forall w | 0 <= w < c.setSize ensures LineIn(k.cache, Slot(i, w)).lockCount == 0 {
      assert IsSlot(c, Slot(i, w)) && Holders(k.ops, Slot(i, w)) == {};
    }
    NoLocks(k.cache, i, c.setSize);
  }

  lemma QuiescentIdle(c: Config, y: Sys, g: Aux)
    requires Good(c) && Consistent(c, y, g) && Quiescent(y)
    ensures y.ctl.core.ops == map[] && y.ctl.front.queue == []
  {
    hide Locked, Accounted, Faithful, Align, Awaited, NumSets, IsUnlocked;
    SubmitNone(y.dram);
    SubmitNone(y.flash);
    NoOperations(c, y.ctl.core, y.ctl.tables, Ahead(y).dram, Ahead(y).flash, {});
    if y.ctl.front.queue != [] {
      NothingLocked(c, y.ctl.core, y.ctl.tables, Align(c, y.ctl.front.queue[0].addr));
    }
  }

  lemma AllDone(c: Config, y: Sys, g: Aux)
    requires Good(c) && Consistent(c, y, g) && Quiescent(y)
    ensures DoneIds(y.ctl.out.done) == UpTo(|y.callers.hist|)
  {
    hide Locked, Faithful, Known, Logged, Align, Awake, Awaited;
    QuiescentIdle(c, y, g);
    assert WaitingIds([]) == {} && OpenIds(map[]) == {};
  }

  /**
   A request is waiting, under way or called back, and called back at most once.  Once the system has
   come to rest every request has been called back.
   */
  lemma ExactlyOnce(c: Config, start: Sys, es: seq<Event>, y: Sys)
    requires Good(c) && Reaches(c, start, es, y)
    ensures var done := y.ctl.out.done;
            && (forall i, j :: 0 <= i < j < |done| ==> done[i].id != done[j].id)
            && WaitingIds(WaitingOf(y.ctl.front)) !! OpenIds(y.ctl.core.ops) !! DoneIds(done)
            && WaitingIds(WaitingOf(y.ctl.front)) + OpenIds(y.ctl.core.ops) + DoneIds(done) == UpTo(|y.callers.hist|)
    ensures Quiescent(y) ==>
              && WaitingOf(y.ctl.front) == [] && y.ctl.core.ops == map[]
              && DoneIds(y.ctl.out.done) == UpTo(|y.callers.hist|)
  {
    hide Run, Locked, Faithful, Known, Logged, Align, Awake, Starts, Awaited, Quiescent;
    var g := Reached(c, start, es, y);
    if Quiescent(y) {
      QuiescentIdle(c, y, g);
      QuiescentFront(y);
      AllDone(c, y, g);
    }
  }

  lemma QuiescentFront(y: Sys)
    requires Quiescent(y) && y.ctl.front.queue == []
    ensures WaitingOf(y.ctl.front) == []
  {
  }

  /** The effective events of a run, and its arrivals. */
  ghost function EffectiveCount(c: Config, y: Sys, es: seq<Event>): nat
    requires Good(c)
    decreases |es|
  {
    if es == [] || !Enabled(c, y, es[0]) || Next(c, y, es[0]).Abort? then 0
    else Flag(Effective(y, es[0])) + EffectiveCount(c, Next(c, y, es[0]).value, es[1..])
  }

  function ArrivalCount(es: seq<Event>): nat {
    if es == [] then 0 else Flag(IsArrival(es[0])) + ArrivalCount(es[1..])
  }

  lemma {:induction false} RunSpends(c: Config, y: Sys, g: Aux, es: seq<Event>, z: Sys)
    requires Good(c) && Consistent(c, y, g) && Run(c, y, es, z)
    ensures EffectiveCount(c, y, es) + TotalWork(c, z) <= TotalWork(c, y) + Times(ArrivalCount(es), ArrivalCost(c))
    decreases |es|
  {
    hide Consistent, Next, Enabled, Effective, TotalWork, ArrivalCost, Times;
    if es != [] {
      var y1, g1 := StepSafe(c, y, g, es[0]);
      RunSpends(c, y1, g1, es[1..], z);
      TimesNext(ArrivalCount(es[1..]), ArrivalCost(c));
    }
  }

  /**
   The controller cannot be kept busy for ever: in every continuation of a run, the events that do
   something are at most the work that is left and a fixed amount for each arrival.
   */
  lemma WorkIsBounded(c: Config, start: Sys, es: seq<Event>, y: Sys, more: seq<Event>, z: Sys)
    requires Good(c) && Reaches(c, start, es, y) && Run(c, y, more, z)
    ensures EffectiveCount(c, y, more) <= TotalWork(c, y) + Times(ArrivalCount(more), ArrivalCost(c))
  {
    hide Consistent, Reaches, Run, TotalWork, EffectiveCount, Times, ArrivalCost;
    var g := Reached(c, start, es, y);
    RunSpends(c, y, g, more, z);
  }

  /** Until it comes to rest, something effective can happen. */
  lemma SomethingToDo(c: Config, y: Sys) returns (e: Event)
    requires Good(c) && !Quiescent(y)
    ensures Enabled(c, y, e) && Effective(y, e) && !IsArrival(e)
  {
    e := if y.dram.q != [] then DramServes(0) else if y.flash.q != [] then FlashServes(0) else Ticks(true, true);
  }

  lemma SameCallers(c: Config, y: Sys, e: Event)
    requires Good(c) && Enabled(c, y, e) && Next(c, y, e).Fine? && !IsArrival(e)
    ensures Next(c, y, e).value.callers == y.callers
  {
    hide Advance, DramReadCallback, FlashReadCallback, FlashCriticalLineCallback, Send, CriticalEnabled, CriticalBurst,
      Servable;
  }

  lemma {:induction false} Finishes(c: Config, y: Sys, g: Aux) returns (es: seq<Event>, z: Sys)
    requires Good(c) && Consistent(c, y, g)
    ensures Run(c, y, es, z) && Quiescent(z) && ArrivalCount(es) == 0 && |es| <= TotalWork(c, y)
    ensures z.callers == y.callers && DoneIds(z.ctl.out.done) == UpTo(|z.callers.hist|)
    decreases TotalWork(c, y)
  {
    hide Consistent, Next, Enabled, Effective, TotalWork, Quiescent;
    if Quiescent(y) {
      es, z := [], y;
      AllDone(c, y, g);
    } else {
      var e := SomethingToDo(c, y);
      var y1, g1 := StepSafe(c, y, g, e);
      SameCallers(c, y, e);
      es, z := Finishes(c, y1, g1);
      es := [e] + es;
    }
  }

  /**
   Every request can be answered: from every reachable state some run without further arrivals brings
   the system to rest, and then every accepted request has been called back.
   */
  lemma EveryRequestAnswered(c: Config, start: Sys, es: seq<Event>, y: Sys) returns (more: seq<Event>, z: Sys)
    requires Good(c) && Reaches(c, start, es, y)
    ensures Run(c, y, more, z) && Quiescent(z) && ArrivalCount(more) == 0 && |more| <= TotalWork(c, y)
    ensures z.callers == y.callers && DoneIds(z.ctl.out.done) == UpTo(|y.callers.hist|)
  {
    hide Consistent, Reaches, Run, TotalWork, Quiescent;
    var g := Reached(c, start, es, y);
    more, z := Finishes(c, y, g);
  }

  /** pending_count is exact and no wake-up is lost. */
  lemma NoLostWakeup(c: Config, start: Sys, es: seq<Event>, y: Sys)
    requires Good(c) && Reaches(c, start, es, y)
    ensures y.ctl.front.pendingCount == |y.ctl.front.queue| + |y.ctl.core.pendingFlash|
    ensures !y.ctl.front.checkQueue && |y.ctl.core.pendingPages| < NumSets(c) ==>
              forall i ::
                0 <= i < |y.ctl.front.queue| ==> !IsUnlocked(c, y.ctl.core, Align(c, y.ctl.front.queue[i].addr))
  {
    hide Run, Locked, Faithful, Accounted, Align, Starts, IsUnlocked;
    var g := Reached(c, start, es, y);
  }

  /** The page is locked by this miss, as the page it fetches or as its valid victim. */
  ghost predicate LockedBy(c: Config, ops: Ops, page: nat, a: Addr)
    requires Good(c)
  {
    a in ops && ops[a].miss && (page == a.page || (ops[a].victimValid && page == VictimPage(c, ops[a])))
  }

  /**
   pending_pages holds exactly the pages and valid victims of the misses in flight, each locked by one
   miss; the entry of a fetched page counts the reads still outstanding.
   */
  lemma PagesAreMisses(c: Config, start: Sys, es: seq<Event>, y: Sys, page: nat)
    requires Good(c) && Reaches(c, start, es, y)
    ensures var k := y.ctl.core;
            && (page in k.pendingPages <==> exists a :: LockedBy(c, k.ops, page, a))
            && (forall a, b :: LockedBy(c, k.ops, page, a) && LockedBy(c, k.ops, page, b) ==> a == b)
            && (forall a :: a in k.ops && k.ops[a].miss && a.page == page ==>
                  page in k.pendingPages && k.pendingPages[page] == Outstanding(k.ops[a]) >= 1)
  {
    hide Run, Lines, Counted, Tabled, Faithful, Accounted, Align, Starts, Awake, PageOf, SetOf, NumSets;
    var g := Reached(c, start, es, y);
    var k := y.ctl.core;
    forall a | LockedBy(c, k.ops, page, a) ensures page in k.pendingPages && k.owner[page] == a {
      assert Owns(c, k.owner, a, k.ops[a]);
    }
    if page in k.pendingPages {
      assert Owned(c, k.ops, k.owner[page], page, k.pendingPages[page]);
      assert LockedBy(c, k.ops, page, k.owner[page]);
    }
    forall a | a in k.ops && k.ops[a].miss && a.page == page
      ensures page in k.pendingPages && k.pendingPages[page] == Outstanding(k.ops[a]) >= 1
    {
      assert OpShape(c, a, k.ops[a]) && LockedBy(c, k.ops, page, a);
    }
  }

  /** The set counters count the locks of the set and never exceed its size. */
  lemma SetCountersExact(c: Config, start: Sys, es: seq<Event>, y: Sys, set_: nat)
    requires Good(c) && Reaches(c, start, es, y) && set_ < NumSets(c)
    ensures CountIn(y.ctl.core.setCounter, set_) == SumLocks(y.ctl.core.cache, set_, c.setSize) <= c.setSize
  {
    hide Run, Held, Lines, Tabled, Faithful, Accounted, Align, Starts, Awake, SumLocks, SetOf;
    var g := Reached(c, start, es, y);
    assert SetCounted(c, y.ctl.core.cache, y.ctl.core.setCounter, set_);
  }

  /** No operation is about the burst, no miss is about its page, and a line of its set is free. */
  ghost predicate Free(c: Config, k: Core, active: set<Addr>, a: Addr)
    requires Good(c)
  {
    && a !in k.ops && a !in active && (forall b :: !LockedBy(c, k.ops, a.page, b))
    && SumLocks(k.cache, SetOf(c, a.page), c.setSize) < c.setSize
  }

  lemma UnlockedIfFree(c: Config, k: Core, tb: Tables, active: set<Addr>, a: Addr)
    requires Good(c) && Locked(c, k, tb, active)
    ensures IsUnlocked(c, k, a) <==> Free(c, k, active, a)
  {
    hide Tabled, Lines, PageOf, SumLocks, SetOf, Shaped, NumSets;
    PageSplit(c, a.page);
    assert SetCounted(c, k.cache, k.setCounter, SetOf(c, a.page));
    if a.page in k.pendingPages {
      assert Owned(c, k.ops, k.owner[a.page], a.page, k.pendingPages[a.page]);
      assert LockedBy(c, k.ops, a.page, k.owner[a.page]);
    }
    forall b | LockedBy(c, k.ops, a.page, b) ensures a.page in k.pendingPages { assert Owns(c, k.owner, b, k.ops[b]); }
  }

  /**
   The cache is lock-up-free.  A request is held up only by an operation about its own burst, a miss about
   its page, or a set all of whose lines are in use; when the scan runs it takes one that is not.
   */
  lemma LockUpFree(c: Config, start: Sys, es: seq<Event>, y: Sys, i: nat)
    requires Good(c) && Reaches(c, start, es, y) && i < |y.ctl.front.queue|
    ensures var s, a := y.ctl, Align(c, y.ctl.front.queue[i].addr);
            && (IsUnlocked(c, s.core, a) <==> Free(c, s.core, ActiveAddr(c, s.front.active), a))
            && (IsUnlocked(c, s.core, a) && s.front.active == None && s.front.delay == 0 && s.front.checkQueue
                && |s.core.pendingPages| < NumSets(c) ==>
                  Advance(c, s).Fine? && Advance(c, s).value.front.active.Some?)
  {
    hide Run, Locked, Faithful, Accounted, Align, Starts, Awake, Awaited, Free, IsUnlocked, NumSets;
    var g := Reached(c, start, es, y);
    var s, a := y.ctl, Align(c, y.ctl.front.queue[i].addr);
    UnlockedIfFree(c, s.core, s.tables, ActiveAddr(c, s.front.active), a);
  }
}
