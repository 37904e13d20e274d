/**
 The invariant of the whole system: the controller's locks, the ledger of requests, the contents
 of both memories and the promises of the reads on their way.  Each step of the controller keeps it.
 */
module HybridInvariant {
  import opened Basics
  import opened HybridGeometry
  import opened InOrderMemory
  import opened HybridController
  import opened HybridLocks
  import opened HybridTables
  import opened HybridLockSteps
  import opened HybridMissSteps
  import opened HybridCallbacks
  import opened HybridLedger
  import opened HybridContents
  import opened HybridReads

  /** Auxiliary: the flat memory after the looked-up writes, and what each miss was promised. */
  datatype Aux = Aux(spec: Addr -> int, prom: Addr -> Promise)

  /** The two memories; their queues include the requests the controller has not yet sent. */
  datatype Memories = Memories(dram: Dram, flash: Flash)

  /** What the callers asked for, and the flat memory that answers them at once. */
  datatype Callers = Callers(hist: seq<Request>, flat: Addr -> int)

  function WaitingOf(f: Front): seq<Txn> {
    (if f.active.Some? then [f.active.value] else []) + f.queue
  }

  ghost function LedgerOf(s: Ctl): Ledger {
    Ledger(WaitingOf(s.front), s.core.ops, s.out.done, s.out.logQueue, s.out.logMap)
  }

  /** A miss that still owes its reader an answer was promised that answer. */
  ghost predicate ReadsPromised(ops: Ops, prom: Addr -> Promise, hist: seq<Request>) {
    forall a :: a in ops && ops[a].miss && Open(ops[a]) && ops[a].txn.kind == DataRead ==>
      ops[a].txn.id < |hist| && prom(a).line(a.off) == hist[ops[a].txn.id].answer
  }

  ghost predicate Faithful(c: Config, s: Ctl, m: Memories, u: Callers, g: Aux)
    requires Good(c)
  {
    && Contents(c, s.core, ImageOf(c, m.dram, m.flash), g.prom, g.spec)
    && DramPromised(s.tables, g.prom, u.hist, m.dram)
    && FlashPromised(c, s.tables, g.prom, m.flash)
    && Gathered(c, s.tables, g.prom)
    && Ordered(c, u.hist, WaitingOf(s.front), g.spec, u.flat)
    && ReadsPromised(s.core.ops, g.prom, u.hist)
  }

  ghost predicate Invariant(c: Config, s: Ctl, m: Memories, u: Callers, g: Aux)
    requires Good(c)
  {
    && Locked(c, s.core, s.tables, ActiveAddr(c, s.front.active))
    && Accounted(c, u.hist, LedgerOf(s))
    && Faithful(c, s, m, u, g)
  }

  ghost function SubmitBoth(m: Memories, rd: seq<Req<DAddr, int>>, rf: seq<Req<FAddr, nat -> int>>): Memories {
    Memories(Submit(m.dram, rd), Submit(m.flash, rf))
  }

  // Images.

  lemma ImageSubmitReads(c: Config, m: Memories, rd: seq<Req<DAddr, int>>, rf: seq<Req<FAddr, nat -> int>>)
    requires Good(c) && (forall i :: 0 <= i < |rd| ==> rd[i].Rd?) && (forall i :: 0 <= i < |rf| ==> rf[i].Rd?)
    ensures var m' := SubmitBoth(m, rd, rf);
            var i, i' := ImageOf(c, m.dram, m.flash), ImageOf(c, m'.dram, m'.flash);
            (forall x :: i'.dram(x) == i.dram(x)) && (forall x :: i'.flash(x) == i.flash(x))
  {
    hide After, Align, ChunkOf;
    var m' := SubmitBoth(m, rd, rf);
    var i, i' := ImageOf(c, m.dram, m.flash), ImageOf(c, m'.dram, m'.flash);
    forall x ensures i'.dram(x) == i.dram(x) { SubmitReads(m.dram, rd, x); }
    forall x: Addr ensures i'.flash(x) == i.flash(x) { SubmitReads(m.flash, rf, FAddr(x.page, ChunkOf(c, x.off))); }
  }

  lemma ImageDram(c: Config, m: Memories, x: DAddr)
    requires Good(c)
    ensures ImageOf(c, m.dram, m.flash).dram(x) == After(m.dram.mem, m.dram.q, x)
  {
  }

  lemma ImageFlash(c: Config, m: Memories, x: Addr)
    requires Good(c)
    ensures ImageOf(c, m.dram, m.flash).flash(x) == After(m.flash.mem, m.flash.q,
            FAddr(x.page, ChunkOf(c, x.off)))(x.off)
  {
  }

  /** Reads change no contents. */
  lemma ContentsReads(c: Config, k: Core, m: Memories, g: Aux, rd: seq<Req<DAddr, int>>, rf: seq<Req<FAddr,
      nat -> int>>)
    requires Good(c) && Contents(c, k, ImageOf(c, m.dram, m.flash), g.prom, g.spec)
    requires (forall i :: 0 <= i < |rd| ==> rd[i].Rd?) && (forall i :: 0 <= i < |rf| ==> rf[i].Rd?)
    ensures var m' := SubmitBoth(m, rd, rf); Contents(c, k, ImageOf(c, m'.dram, m'.flash), g.prom, g.spec)
  {
    hide Contents, ImageOf, Submit;
    var m' := SubmitBoth(m, rd, rf);
    ImageSubmitReads(c, m, rd, rf);
    ContentsImage(c, k, ImageOf(c, m.dram, m.flash), ImageOf(c, m'.dram, m'.flash), g.prom, g.spec);
  }

  lemma FlashSame(c: Config, tb: Tables, tb': Tables, prom: Addr -> Promise, f: Flash)
    requires Good(c) && FlashPromised(c, tb, prom, f)
    requires tb'.flashPending == tb.flashPending && tb'.flashWait == tb.flashWait
    ensures FlashPromised(c, tb', prom, f) && FlashPromised(c, tb', prom, Submit(f, []))
  {
    hide Answer, After, ChunkOf, Bursts;
    assert f.q + [] == f.q;
    forall j | 0 <= j < |f.q| && f.q[j].Rd? ensures FlashReadOk(c, tb', prom, f.q[j].key, Answer(f, j)) {
      assert FlashReadOk(c, tb, prom, f.q[j].key, Answer(f, j));
    }
  }

  lemma DramSame(tb: Tables, tb': Tables, prom: Addr -> Promise, hist: seq<Request>, d: Dram, r: seq<Req<DAddr, int>>)
    requires DramPromised(tb, prom, hist, d) && forall i :: 0 <= i < |r| ==> r[i].Wr?
    requires tb'.dramPending == tb.dramPending && tb'.dramWait == tb.dramWait
    ensures DramPromised(tb', prom, hist, Submit(d, r))
  {
    hide DramPromised, After;
    DramSubmitted(tb, tb', prom, prom, hist, d, r);
  }

  // Lookups.

  /** The active transaction is looked up. */
  ghost predicate Looking(c: Config, s: Ctl, t: Txn, a: Addr)
    requires Good(c)
  {
    s.front.active == Some(t) && a == Align(c, t.addr)
  }

  /** The front end once the lookup is over. */
  function Looked(f: Front): Front { f.(active := None) }

  lemma WaitingLooked(f: Front)
    requires f.active.Some?
    ensures WaitingOf(f) != [] && WaitingOf(f)[0] == f.active.value && WaitingOf(Looked(f)) == WaitingOf(f)[1..]
  {
  }

  /** What the lookup does to the flat memory, and the answer it owes. */
  lemma LookedOrdered(c: Config, s: Ctl, u: Callers, g: Aux, t: Txn, a: Addr)
    requires Good(c) && Looking(c, s, t, a) && Ordered(c, u.hist, WaitingOf(s.front), g.spec, u.flat)
    ensures Ordered(c, u.hist, WaitingOf(Looked(s.front)), Apply(g.spec, ReqOf(c, t)), u.flat)
    ensures t.kind == DataRead ==> t.id < |u.hist| && g.spec(a) == u.hist[t.id].answer
    ensures a.off < Bursts(c)
  {
    hide Ordered, Align, WaitingOf;
    AlignFaithful(c, t.addr);
    WaitingLooked(s.front);
    OrderedProcess(c, u.hist, WaitingOf(s.front), g.spec, u.flat);
  }

  lemma ReadHitFaithful(c: Config, s: Ctl, m: Memories, u: Callers, g: Aux, t: Txn, a: Addr, slot: Slot, s': Ctl)
    requires Good(c) && Looking(c, s, t, a) && HitReady(c, s.core, s.tables, t, a, slot) && t.kind == DataRead
             && Faithful(c, s, m, u, g)
    requires s'.core == ReadHitCore(s.core, t, a, slot, s.front.now) && s'.tables == ReadHitTables(s.tables, t, a, slot)
    requires WaitingOf(s'.front) == WaitingOf(Looked(s.front))
    ensures Faithful(c, s', SubmitBoth(m, [Rd(DAddr(slot, a.off))], []), u, g)
  {
    hide Contents, DramPromised, FlashPromised, Gathered, Ordered, ReadsPromised, Locked, Align, Bursts, ImageOf,
      DramReadOk, FlashReadOk, Submit, WaitingOf;
    LookedOrdered(c, s, u, g, t, a);
    HitValue(c, s.core, s.tables, ImageOf(c, m.dram, m.flash), g.prom, g.spec, t, a, slot);
    ImageDram(c, m, DAddr(slot, a.off));
    HitKeyFree(c, s.core, s.tables, t, a, slot);
    ReadHitContents(c, s, ImageOf(c, m.dram, m.flash), g, t, a, slot, s');
    ContentsReads(c, s'.core, m, g, [Rd(DAddr(slot, a.off))], []);
    ReadHitPromised(c, s.tables, g, u.hist, m.dram, t, a, slot);
    FlashSame(c, s.tables, s'.tables, g.prom, m.flash);
    ReadHitRest(c, s, g, u.hist, t, a, slot, s');
  }

  lemma ReadHitContents(c: Config, s: Ctl, i: Image, g: Aux, t: Txn, a: Addr, slot: Slot, s': Ctl)
    requires Good(c) && HitReady(c, s.core, s.tables, t, a, slot) && Contents(c, s.core, i, g.prom, g.spec)
    requires s'.core == ReadHitCore(s.core, t, a, slot, s.front.now)
    ensures Contents(c, s'.core, i, g.prom, g.spec)
  {
    hide Contents, Locked, Align, Bursts, Caches;
    HitSettled(c, s.core, s.tables, t, a, slot);
    MissOwners(c, s.core, s.tables, {a});
    assert SameLines(s.core.cache, s'.core.cache);
    ContentsKept(c, s.core, s'.core, i, g.prom, g.spec);
  }

  lemma ReadHitPromised(c: Config, tb: Tables, g: Aux, hist: seq<Request>, d: Dram, t: Txn, a: Addr, slot: Slot)
    requires Good(c) && DramPromised(tb, g.prom, hist, d) && slot !in tb.dramWait
             && DAddr(slot, a.off) !in tb.dramPending
    requires t.id < |hist| && After(d.mem, d.q, DAddr(slot, a.off)) == hist[t.id].answer
    ensures DramPromised(ReadHitTables(tb, t, a, slot), g.prom, hist, Submit(d, [Rd(DAddr(slot, a.off))]))
  {
    hide DramPromised, After;
    DramSubmitted(tb, ReadHitTables(tb, t, a, slot), g.prom, g.prom, hist, d, [Rd(DAddr(slot, a.off))]);
  }

  lemma ReadHitRest(c: Config, s: Ctl, g: Aux, hist: seq<Request>, t: Txn, a: Addr, slot: Slot, s': Ctl)
    requires Good(c) && Gathered(c, s.tables, g.prom) && ReadsPromised(s.core.ops, g.prom, hist)
    requires slot !in s.tables.dramWait
    requires s'.core == ReadHitCore(s.core, t, a, slot, s.front.now) && s'.tables == ReadHitTables(s.tables, t, a, slot)
    ensures Gathered(c, s'.tables, g.prom) && ReadsPromised(s'.core.ops, g.prom, hist)
  {
    hide VictimSoFar, LineSoFar;
  }

  lemma PrefetchHitFaithful(c: Config, s: Ctl, m: Memories, u: Callers, g: Aux, t: Txn, a: Addr, slot: Slot, s': Ctl)
    requires Good(c) && Looking(c, s, t, a) && HitReady(c, s.core, s.tables, t, a, slot) && t.kind == Prefetch
             && Faithful(c, s, m, u, g)
    requires s'.core == HitDone(s.core, a, slot, LineIn(s.core.cache, slot)) && s'.tables == s.tables
    requires WaitingOf(s'.front) == WaitingOf(Looked(s.front))
    ensures Faithful(c, s', m, u, g)
  {
    hide Contents, DramPromised, FlashPromised, Gathered, Ordered, ReadsPromised, Locked, Align, Bursts, ImageOf,
      WaitingOf;
    LookedOrdered(c, s, u, g, t, a);
    MissOwners(c, s.core, s.tables, {a});
    assert SameLines(s.core.cache, s'.core.cache);
    ContentsKept(c, s.core, s'.core, ImageOf(c, m.dram, m.flash), g.prom, g.spec);
  }

  lemma ImageWrite(c: Config, m: Memories, key: DAddr, data: int)
    requires Good(c)
    ensures var m' := SubmitBoth(m, [Wr(key, data)], []);
            var i, i' := ImageOf(c, m.dram, m.flash), ImageOf(c, m'.dram, m'.flash);
            && (forall x :: i'.dram(x) == if x == key then data else i.dram(x))
            && (forall x :: i'.flash(x) == i.flash(x))
  {
    hide After, ChunkOf;
    assert m.flash.q + [] == m.flash.q;
    var m' := SubmitBoth(m, [Wr(key, data)], []);
    var i, i' := ImageOf(c, m.dram, m.flash), ImageOf(c, m'.dram, m'.flash);
    forall x
      ensures i'.dram(x) == if x == key then data else i.dram(x)
    {
      AfterSnoc(m.dram.mem, m.dram.q, Wr(key, data), x);
    }
  }

  lemma WriteHitFaithful(c: Config, s: Ctl, m: Memories, u: Callers, g: Aux, t: Txn, a: Addr, slot: Slot, s': Ctl)
    requires Good(c) && Looking(c, s, t, a) && HitReady(c, s.core, s.tables, t, a, slot) && t.kind == DataWrite
             && Faithful(c, s, m, u, g)
    requires s'.core == HitDone(s.core, a, slot, Written(s.core, slot, s.front.now)) && s'.tables == s.tables
    requires WaitingOf(s'.front) == WaitingOf(Looked(s.front))
    ensures Faithful(c, s', SubmitBoth(m, [Wr(DAddr(slot, a.off), t.data)], []), u,
            g.(spec := Store(g.spec, a, t.data)))
  {
    hide Contents, DramPromised, FlashPromised, Gathered, Ordered, ReadsPromised, Locked, Align, Bursts, ImageOf,
      Submit, WaitingOf, Caches;
    LookedOrdered(c, s, u, g, t, a);
    HitSettled(c, s.core, s.tables, t, a, slot);
    HitFacts(c, s.core, s.tables, t, a, slot);
    var m' := SubmitBoth(m, [Wr(DAddr(slot, a.off), t.data)], []);
    ImageWrite(c, m, DAddr(slot, a.off), t.data);
    ContentsWrite(c, s.core, s'.core, ImageOf(c, m.dram, m.flash), ImageOf(c, m'.dram, m'.flash), g.prom, g.spec, a,
        slot, t.data);
    DramSame(s.tables, s'.tables, g.prom, u.hist, m.dram, [Wr(DAddr(slot, a.off), t.data)]);
    FlashSame(c, s.tables, s'.tables, g.prom, m.flash);
  }

  // Misses.

  /** A miss is promised the page as the flash holds it and its victim as the DRAM holds it. */
  ghost function MissPromise(c: Config, m: Memories, a: Addr, slot: Slot): Promise
    requires Good(c)
  {
    var i := ImageOf(c, m.dram, m.flash);
    Promise((o: nat) => i.flash(Addr(a.page, o)), (o: nat) => i.dram(DAddr(slot, o)))
  }

  ghost function Promised(prom: Addr -> Promise, a: Addr, p: Promise): Addr -> Promise {
    x => if x == a then p else prom(x)
  }

  ghost function MissAux(c: Config, m: Memories, g: Aux, t: Txn, a: Addr, slot: Slot): Aux
    requires Good(c)
  {
    Aux(if t.kind == DataWrite then Store(g.spec, a, t.data) else g.spec,
        Promised(g.prom, a, MissPromise(c, m, a, slot)))
  }

  ghost function MissReads(c: Config, slot: Slot, l: Line): seq<Req<DAddr, int>>
    requires Good(c)
  {
    if l.dirty then PageReads(slot, Bursts(c)) else []
  }

  lemma MissFaithful(c: Config, s: Ctl, m: Memories, u: Callers, g: Aux, t: Txn, a: Addr, slot: Slot, s': Ctl)
    requires Good(c) && Looking(c, s, t, a) && MissReady(c, s.core, s.tables, t, a) && Faithful(c, s, m, u, g)
    requires slot == MissSlot(c, s.core.cache, SetOf(c, a.page))
    requires s'.core == MissCore(c, s.core, t, a, slot)
             && s'.tables == MissTables(c, s.tables, t, a, slot, LineIn(s.core.cache, slot))
    requires WaitingOf(s'.front) == WaitingOf(Looked(s.front))
    ensures Faithful(c, s', SubmitBoth(m, MissReads(c, slot, LineIn(s.core.cache, slot)),
            ChunkReads(a.page, Chunks(c))), u, MissAux(c, m, g, t, a, slot))
  {
    hide Contents, DramPromised, FlashPromised, Gathered, Ordered, ReadsPromised, Locked, Align, Bursts, ImageOf,
      Submit, WaitingOf, MissCore, MissTables, MissSlot, Chunks, SetOf, MissReady, PageReads, ChunkReads, LineIn;
    LookedOrdered(c, s, u, g, t, a);
    MissContents(c, s, m, g, t, a, slot);
    MissDramPromised(c, s, m, u, g, t, a, slot);
    MissFlashPromised(c, s, m, g, t, a, slot);
    MissRest(c, s, m, u, g, t, a, slot);
  }

  lemma MissContents(c: Config, s: Ctl, m: Memories, g: Aux, t: Txn, a: Addr, slot: Slot)
    requires Good(c) && MissReady(c, s.core, s.tables, t, a)
             && Contents(c, s.core, ImageOf(c, m.dram, m.flash), g.prom, g.spec)
    requires slot == MissSlot(c, s.core.cache, SetOf(c, a.page))
    ensures var m' := SubmitBoth(m, MissReads(c, slot, LineIn(s.core.cache, slot)), ChunkReads(a.page, Chunks(c)));
            var g' := MissAux(c, m, g, t, a, slot);
            Contents(c, MissCore(c, s.core, t, a, slot), ImageOf(c, m'.dram, m'.flash), g'.prom, g'.spec)
  {
    hide Contents, Locked, Align, Bursts, ImageOf, Submit, MissCore, MissSlot, Chunks, SetOf, MissReady;
    var g' := MissAux(c, m, g, t, a, slot);
    var i := ImageOf(c, m.dram, m.flash);
    ContentsMiss(c, s.core, s.tables, i, g.prom, g.spec, t, a, slot, i, g'.prom, g'.spec);
    ContentsReads(c, MissCore(c, s.core, t, a, slot), m, g', MissReads(c, slot, LineIn(s.core.cache, slot)),
        ChunkReads(a.page, Chunks(c)));
  }

  /** Promises already made are to other operations. */
  lemma MissKeepsDram(c: Config, k: Core, tb: Tables, hist: seq<Request>, m: Memories, g: Aux, t: Txn, a: Addr,
      slot: Slot, key: DAddr, answer: int)
    requires Good(c) && Locked(c, k, tb, {a}) && a !in k.ops && (forall b :: b in k.ops ==> k.ops[b].slot != slot)
    requires DramReadOk(tb, g.prom, hist, key, answer)
    ensures key.slot != slot
    ensures DramReadOk(MissTables(c, tb, t, a, slot, LineIn(k.cache, slot)), MissAux(c, m, g, t, a, slot).prom, hist,
            key, answer)
  {
    hide Locked, Align, Bursts, Chunks, UpTo, MissPromise;
    if key.slot in tb.dramWait {
      VictimEntryFacts(c, k, tb, key.slot, {a});
    } else {
      DramEntryFacts(c, k, tb, key, {a});
    }
  }

  lemma MissDramPromised(c: Config, s: Ctl, m: Memories, u: Callers, g: Aux, t: Txn, a: Addr, slot: Slot)
    requires Good(c) && MissReady(c, s.core, s.tables, t, a) && DramPromised(s.tables, g.prom, u.hist, m.dram)
    requires slot == MissSlot(c, s.core.cache, SetOf(c, a.page))
    ensures DramPromised(MissTables(c, s.tables, t, a, slot, LineIn(s.core.cache, slot)),
            MissAux(c, m, g, t, a, slot).prom, u.hist,
                         Submit(m.dram, MissReads(c, slot, LineIn(s.core.cache, slot))))
  {
    hide DramPromised, Locked, Align, Chunks, SetOf, DramReadOk, MissTables, MissAux, MissSlot, After;
    MissFacts(c, s.core, s.tables, t, a);
    var tb' := MissTables(c, s.tables, t, a, slot, LineIn(s.core.cache, slot));
    var prom' := MissAux(c, m, g, t, a, slot).prom;
    var r := MissReads(c, slot, LineIn(s.core.cache, slot));
    forall key, answer | DramReadOk(s.tables, g.prom, u.hist, key, answer)
      ensures key.slot != slot && DramReadOk(tb', prom', u.hist, key, answer)
    {
      MissKeepsDram(c, s.core, s.tables, u.hist, m, g, t, a, slot, key, answer);
    }
    forall i | 0 <= i < |r| ensures DramReadOk(tb', prom', u.hist, r[i].key, After(m.dram.mem, m.dram.q, r[i].key)) {
      MissNewDram(c, s.core, s.tables, u.hist, m, g, t, a, slot, i);
    }
    DramSubmitted(s.tables, tb', g.prom, prom', u.hist, m.dram, r);
  }

  lemma MissNewDram(c: Config, k: Core, tb: Tables, hist: seq<Request>, m: Memories, g: Aux, t: Txn, a: Addr,
      slot: Slot, i: nat)
    requires Good(c) && LineIn(k.cache, slot).dirty && i < Bursts(c)
    ensures DramReadOk(MissTables(c, tb, t, a, slot, LineIn(k.cache, slot)), MissAux(c, m, g, t, a, slot).prom, hist,
                       DAddr(slot, i), After(m.dram.mem, m.dram.q, DAddr(slot, i)))
  {
    hide After, Bursts, Chunks, ImageOf;
    ImageDram(c, m, DAddr(slot, i));
  }

  lemma MissFlashPromised(c: Config, s: Ctl, m: Memories, g: Aux, t: Txn, a: Addr, slot: Slot)
    requires Good(c) && MissReady(c, s.core, s.tables, t, a) && FlashPromised(c, s.tables, g.prom, m.flash)
    requires slot == MissSlot(c, s.core.cache, SetOf(c, a.page))
    ensures FlashPromised(c, MissTables(c, s.tables, t, a, slot, LineIn(s.core.cache, slot)),
            MissAux(c, m, g, t, a, slot).prom,
                          Submit(m.flash, ChunkReads(a.page, Chunks(c))))
  {
    hide FlashPromised, Locked, Align, SetOf, FlashReadOk, MissTables, MissAux, MissSlot, After;
    MissFacts(c, s.core, s.tables, t, a);
    var tb' := MissTables(c, s.tables, t, a, slot, LineIn(s.core.cache, slot));
    var prom' := MissAux(c, m, g, t, a, slot).prom;
    var r := ChunkReads(a.page, Chunks(c));
    forall key, answer | FlashReadOk(c, s.tables, g.prom, key, answer)
      ensures key.page != a.page && FlashReadOk(c, tb', prom', key, answer)
    {
      MissKeepsFlash(c, s.core, s.tables, m, g, t, a, slot, key, answer);
    }
    forall i | 0 <= i < |r| ensures FlashReadOk(c, tb', prom', r[i].key, After(m.flash.mem, m.flash.q, r[i].key)) {
      MissNewFlash(c, s.core, s.tables, m, g, t, a, slot, i);
    }
    FlashSubmitted(c, s.tables, tb', g.prom, prom', m.flash, r);
  }

  lemma MissKeepsFlash(c: Config, k: Core, tb: Tables, m: Memories, g: Aux, t: Txn, a: Addr, slot: Slot, key: FAddr,
      answer: nat -> int)
    requires Good(c) && Locked(c, k, tb, {a}) && a !in k.ops && (forall b :: b in k.ops ==> b.page != a.page)
    requires FlashReadOk(c, tb, g.prom, key, answer)
    ensures key.page != a.page
    ensures FlashReadOk(c, MissTables(c, tb, t, a, slot, LineIn(k.cache, slot)), MissAux(c, m, g, t, a, slot).prom,
            key, answer)
  {
    hide Locked, Align, Bursts, Chunks, ChunkOf, UpTo, MissPromise;
    FlashEntryFacts(c, k, tb, key.page, {a});
  }

  lemma MissNewFlash(c: Config, k: Core, tb: Tables, m: Memories, g: Aux, t: Txn, a: Addr, slot: Slot, i: nat)
    requires Good(c) && i < Chunks(c)
    ensures FlashReadOk(c, MissTables(c, tb, t, a, slot, LineIn(k.cache, slot)), MissAux(c, m, g, t, a, slot).prom,
                        FAddr(a.page, i), After(m.flash.mem, m.flash.q, FAddr(a.page, i)))
  {
    hide After, Bursts, Chunks, ChunkOf, ImageOf;
    var pr := MissPromise(c, m, a, slot);
    forall o: nat | o < Bursts(c) && ChunkOf(c, o) == i
      ensures After(m.flash.mem, m.flash.q, FAddr(a.page, i))(o) == pr.line(o)
    {
      ImageFlash(c, m, Addr(a.page, o));
    }
  }

  lemma MissRest(c: Config, s: Ctl, m: Memories, u: Callers, g: Aux, t: Txn, a: Addr, slot: Slot)
    requires Good(c) && MissReady(c, s.core, s.tables, t, a) && Gathered(c, s.tables, g.prom)
             && ReadsPromised(s.core.ops, g.prom, u.hist)
    requires Contents(c, s.core, ImageOf(c, m.dram, m.flash), g.prom, g.spec) && a.off < Bursts(c)
    requires t.kind == DataRead ==> t.id < |u.hist| && g.spec(a) == u.hist[t.id].answer
    requires slot == MissSlot(c, s.core.cache, SetOf(c, a.page))
    ensures Gathered(c, MissTables(c, s.tables, t, a, slot, LineIn(s.core.cache, slot)),
            MissAux(c, m, g, t, a, slot).prom)
    ensures ReadsPromised(MissCore(c, s.core, t, a, slot).ops, MissAux(c, m, g, t, a, slot).prom, u.hist)
  {
    hide Contents, Locked, Align, Bursts, Chunks, SetOf, MissSlot, After, ImageOf, Gathered, MissTables;
    MissFacts(c, s.core, s.tables, t, a);
    MissGathered(c, s.core, s.tables, m, g, t, a, slot);
    MissPage(c, s.core, s.tables, ImageOf(c, m.dram, m.flash), g, t, a);
  }

  /** The missed page is in flash, up to date. */
  lemma MissPage(c: Config, k: Core, tb: Tables, i: Image, g: Aux, t: Txn, a: Addr)
    requires Good(c) && MissReady(c, k, tb, t, a) && Contents(c, k, i, g.prom, g.spec) && a.off < Bursts(c)
    ensures i.flash(a) == g.spec(a)
  {
    hide Contents, Align, Bursts, SetOf, MissSlot, CachedOk, OwnedOk, Tabled, Counted, Lines, Absent;
    ContentsAt(c, k, i, g.prom, g.spec, a.page, a.off);
    assert a in {a};
    MissOwners(c, k, tb, {a});
  }

  lemma MissGathered(c: Config, k: Core, tb: Tables, m: Memories, g: Aux, t: Txn, a: Addr, slot: Slot)
    requires Good(c) && Locked(c, k, tb, {a}) && a !in k.ops && Gathered(c, tb, g.prom)
    ensures Gathered(c, MissTables(c, tb, t, a, slot, LineIn(k.cache, slot)), MissAux(c, m, g, t, a, slot).prom)
  {
    hide Locked, MissTables, VictimsSoFar, LinesSoFar;
    MissVictims(c, k, tb, m, g, t, a, slot);
    MissLines(c, k, tb, m, g, t, a, slot);
  }

  lemma MissVictims(c: Config, k: Core, tb: Tables, m: Memories, g: Aux, t: Txn, a: Addr, slot: Slot)
    requires Good(c) && Locked(c, k, tb, {a}) && a !in k.ops && VictimsSoFar(c, tb, g.prom)
    ensures VictimsSoFar(c, MissTables(c, tb, t, a, slot, LineIn(k.cache, slot)), MissAux(c, m, g, t, a, slot).prom)
  {
    hide Locked, Align, MissPromise, VictimSoFar, UpTo, Bursts, Chunks;
    var prom' := MissAux(c, m, g, t, a, slot).prom;
    forall x | x in tb.dramWait && DAddr(x, 0) in tb.dramPending
      ensures prom'(tb.dramPending[DAddr(x, 0)].flash) == g.prom(tb.dramPending[DAddr(x, 0)].flash)
    {
      VictimEntryFacts(c, k, tb, x, {a});
    }
    NothingYet(c, prom'(a));
  }

  lemma MissLines(c: Config, k: Core, tb: Tables, m: Memories, g: Aux, t: Txn, a: Addr, slot: Slot)
    requires Good(c) && Locked(c, k, tb, {a}) && a !in k.ops && LinesSoFar(c, tb, g.prom)
    ensures LinesSoFar(c, MissTables(c, tb, t, a, slot, LineIn(k.cache, slot)), MissAux(c, m, g, t, a, slot).prom)
  {
    hide Locked, Align, MissPromise, LineSoFar, UpTo, Bursts, Chunks, MissTables;
    var prom' := MissAux(c, m, g, t, a, slot).prom;
    var tb' := MissTables(c, tb, t, a, slot, LineIn(k.cache, slot));
    MissFlashTables(c, tb, t, a, slot, LineIn(k.cache, slot));
    NothingYet(c, prom'(a));
    forall p | p in tb'.flashWait && p in tb'.flashGot && p in tb'.flashPending
      ensures LineSoFar(c, tb'.flashWait[p], tb'.flashGot[p], prom'(tb'.flashPending[p].flash))
    {
      if p != a.page { FlashEntryFacts(c, k, tb, p, {a}); }
    }
  }

  /** The line entries of a miss. */
  lemma MissFlashTables(c: Config, tb: Tables, t: Txn, a: Addr, slot: Slot, l: Line)
    requires Good(c)
    ensures var tb' := MissTables(c, tb, t, a, slot, l);
            && tb'.flashWait == tb.flashWait[a.page := UpTo(Chunks(c))]
               && tb'.flashGot == tb.flashGot[a.page := NOTHING]
            && tb'.flashPending == tb.flashPending[a.page := MissPending(t, a, slot, l)]
  {
  }

  lemma NothingYet(c: Config, pr: Promise)
    requires Good(c)
    ensures VictimSoFar(c, UpTo(Bursts(c)), NOTHING, pr) && LineSoFar(c, UpTo(Chunks(c)), NOTHING, pr)
  {
    hide Bursts, Chunks, ChunkOf;
    forall o: nat | o < Bursts(c) ensures ChunkOf(c, o) < Chunks(c) { ChunkInPage(c, o); }
  }
}
