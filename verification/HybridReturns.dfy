/** Every read that comes back brings what was promised, and the tables stay faithful to the memories. */
module HybridReturns {
  import opened Basics
  import opened HybridGeometry
  import opened InOrderMemory
  import opened HybridController
  import opened HybridLocks
  import opened HybridTables
  import opened HybridLockSteps
  import opened HybridMissSteps
  import opened HybridCallbacks
  import opened HybridLedger
  import opened HybridContents
  import opened HybridReads
  import opened HybridInvariant

  /** The DRAM serves a request. */
  lemma DramServedFaithful(c: Config, s: Ctl, m: Memories, u: Callers, g: Aux, i: nat)
    requires Good(c) && Faithful(c, s, m, u, g) && Servable(m.dram.q, i)
    ensures Faithful(c, s, m.(dram := Serve(m.dram, i)), u, g)
  {
    hide DramPromised, FlashPromised, Gathered, Ordered, ReadsPromised, Contents, Serve, After, ChunkOf;
    DramServed(s.tables, g.prom, u.hist, m.dram, i);
    ContentsImage(c, s.core, ImageOf(c, m.dram, m.flash), ImageOf(c, Serve(m.dram, i), m.flash), g.prom, g.spec);
  }

  lemma FlashServedFaithful(c: Config, s: Ctl, m: Memories, u: Callers, g: Aux, i: nat)
    requires Good(c) && Faithful(c, s, m, u, g) && Servable(m.flash.q, i)
    ensures Faithful(c, s, m.(flash := Serve(m.flash, i)), u, g)
  {
    hide DramPromised, FlashPromised, Gathered, Ordered, ReadsPromised, Contents, Serve, After, ChunkOf;
    FlashServed(c, s.tables, g.prom, m.flash, i);
    var m' := m.(flash := Serve(m.flash, i));
    forall x: Addr
      ensures ImageOf(c, m'.dram, m'.flash).flash(x) == ImageOf(c, m.dram, m.flash).flash(x)
    {
      ImageFlash(c, m', x);
    }
    ContentsImage(c, s.core, ImageOf(c, m.dram, m.flash), ImageOf(c, m'.dram, m'.flash), g.prom, g.spec);
  }

  /** The read of `key` has just been answered with `value`; no other read of it is outstanding. */
  ghost predicate DramAnswered(s: Ctl, m: Memories, u: Callers, g: Aux, key: DAddr, value: int) {
    && DramReadOk(s.tables, g.prom, u.hist, key, value)
    && forall j :: 0 <= j < |m.dram.q| && m.dram.q[j].Rd? ==> m.dram.q[j].key != key
  }

  ghost predicate FlashAnswered(c: Config, s: Ctl, m: Memories, g: Aux, key: FAddr, value: nat -> int)
    requires Good(c)
  {
    && FlashReadOk(c, s.tables, g.prom, key, value)
    && forall j :: 0 <= j < |m.flash.q| && m.flash.q[j].Rd? ==> m.flash.q[j].key != key
  }

  // DRAM reads.

  lemma CacheReadBackFaithful(c: Config, s: Ctl, m: Memories, u: Callers, g: Aux, key: DAddr, value: int,
      active: set<Addr>, s': Ctl)
    requires Good(c) && Locked(c, s.core, s.tables, active) && Faithful(c, s, m, u, g)
             && DramAnswered(s, m, u, g, key, value)
    requires key.slot !in s.tables.dramWait && key in s.tables.dramPending
    requires var p := s.tables.dramPending[key];
             && p.flash in s.core.ops && !s.core.ops[p.flash].miss
             && s'.core == EndHitCore(s.core, p.flash, p.slot)
                && s'.tables == s.tables.(dramPending := s.tables.dramPending - {key})
    requires WaitingOf(s'.front) == WaitingOf(s.front)
    ensures Faithful(c, s', m, u, g)
    ensures s.tables.dramPending[key].txn.id < |u.hist| && value == u.hist[s.tables.dramPending[key].txn.id].answer
  {
    hide Contents, DramPromised, FlashPromised, Ordered, Locked, ImageOf, WaitingOf, VictimSoFar, LineSoFar;
    EndHitContents(c, s.core, s.tables, ImageOf(c, m.dram, m.flash), g, s.tables.dramPending[key].flash,
        s.tables.dramPending[key].slot, active);
    DramRetabled(s.tables, s'.tables, g.prom, u.hist, m.dram, key);
    FlashSame(c, s.tables, s'.tables, g.prom, m.flash);
  }

  lemma EndHitContents(c: Config, k: Core, tb: Tables, i: Image, g: Aux, a: Addr, slot: Slot, active: set<Addr>)
    requires Good(c) && Locked(c, k, tb, active) && Contents(c, k, i, g.prom, g.spec) && a in k.ops && !k.ops[a].miss
    ensures Contents(c, EndHitCore(k, a, slot), i, g.prom, g.spec)
  {
    hide Contents, Locked;
    MissOwners(c, k, tb, active);
    ContentsKept(c, k, EndHitCore(k, a, slot), i, g.prom, g.spec);
  }

  lemma VictimPartFaithful(c: Config, s: Ctl, m: Memories, u: Callers, g: Aux, key: DAddr, value: int, s': Ctl)
    requires Good(c) && Faithful(c, s, m, u, g) && DramAnswered(s, m, u, g, key, value)
    requires key.slot in s.tables.dramWait && key.slot in s.tables.dramGot
    requires s' == s.(tables := s.tables.(
                      dramWait := s.tables.dramWait[key.slot := s.tables.dramWait[key.slot] - {key.off}],
                      dramGot := s.tables.dramGot[key.slot := Gather(s.tables.dramGot[key.slot], key.off, value)]))
    ensures Faithful(c, s', m, u, g)
  {
    hide Contents, DramPromised, FlashPromised, Ordered, ImageOf, WaitingOf, LineSoFar, Bursts;
    DramRetabled(s.tables, s'.tables, g.prom, u.hist, m.dram, key);
    FlashSame(c, s.tables, s'.tables, g.prom, m.flash);
  }

  lemma VictimGathered(c: Config, s: Ctl, m: Memories, u: Callers, g: Aux, key: DAddr, value: int)
    requires Good(c) && Gathered(c, s.tables, g.prom) && DramAnswered(s, m, u, g, key, value)
    requires key.slot in s.tables.dramWait && key.slot in s.tables.dramGot
             && s.tables.dramWait[key.slot] - {key.off} == {}
    ensures DAddr(key.slot, 0) in s.tables.dramPending
    ensures var got := Gather(s.tables.dramGot[key.slot], key.off, value);
            forall o: nat ::
              o < Bursts(c) ==> got(o) == g.prom(s.tables.dramPending[DAddr(key.slot, 0)].flash).victim(o)
  {
    hide LinesSoFar, Bursts;
    var wait := s.tables.dramWait[key.slot];
    assert VictimSoFar(c, wait, s.tables.dramGot[key.slot], g.prom(s.tables.dramPending[DAddr(key.slot, 0)].flash));
    forall o: nat | o < Bursts(c) && o != key.off ensures o !in wait { assert o !in wait - {key.off}; }
  }

  lemma ImageVictim(c: Config, m: Memories, page: nat, got: nat -> int)
    requires Good(c)
    ensures var m' := SubmitBoth(m, [], ChunkWrites(page, Chunks(c), got));
            var i, i' := ImageOf(c, m.dram, m.flash), ImageOf(c, m'.dram, m'.flash);
            && (forall x :: i'.dram(x) == i.dram(x))
            && (forall x: Addr ::
               x.off < Bursts(c) ==> i'.flash(x) == if x.page == page then got(x.off) else i.flash(x))
  {
    hide After, ChunkOf, ChunkWrites, Bursts, Chunks;
    assert m.dram.q + [] == m.dram.q;
    var m' := SubmitBoth(m, [], ChunkWrites(page, Chunks(c), got));
    var i, i' := ImageOf(c, m.dram, m.flash), ImageOf(c, m'.dram, m'.flash);
    forall x: Addr | x.off < Bursts(c) ensures i'.flash(x) == if x.page == page then got(x.off) else i.flash(x) {
      ChunkInPage(c, x.off);
      AfterChunkWrites(m.flash.mem, m.flash.q, page, Chunks(c), got, FAddr(x.page, ChunkOf(c, x.off)));
    }
  }

  lemma VictimBackFaithful(c: Config, s: Ctl, m: Memories, u: Callers, g: Aux, key: DAddr, value: int,
      active: set<Addr>, a: Addr, s': Ctl)
    requires Good(c) && Locked(c, s.core, s.tables, active) && Faithful(c, s, m, u, g)
             && DramAnswered(s, m, u, g, key, value)
    requires key.slot in s.tables.dramWait && key.slot in s.tables.dramGot
             && s.tables.dramWait[key.slot] - {key.off} == {}
    requires DAddr(key.slot, 0) in s.tables.dramPending && a == s.tables.dramPending[DAddr(key.slot, 0)].flash
    requires a in s.core.ops && s.core.ops[a].victimOut && AfterVictim(c, s.core, a, s'.core)
    requires s'.tables == VictimTables(s.tables, key.slot) && WaitingOf(s'.front) == WaitingOf(s.front)
    ensures Faithful(c, s', SubmitBoth(m, [], ChunkWrites(VictimPage(c, s.core.ops[a]), Chunks(c),
                                                          Gather(s.tables.dramGot[key.slot], key.off, value))), u, g)
  {
    hide Contents, DramPromised, FlashPromised, Ordered, ImageOf, WaitingOf, Bursts, Locked, PageOf, Submit, Chunks,
      ChunkWrites, Gather, VictimSoFar, LineSoFar, MissGone, ReadsPromised, Align;
    var got := Gather(s.tables.dramGot[key.slot], key.off, value);
    var r := ChunkWrites(VictimPage(c, s.core.ops[a]), Chunks(c), got);
    var m' := SubmitBoth(m, [], r);
    VictimGathered(c, s, m, u, g, key, value);
    ImageVictim(c, m, VictimPage(c, s.core.ops[a]), got);
    VictimMiss(c, s.core, s.tables, active, a);
    MissIsKnown(c, s.core, s.tables, a, active);
    ContentsVictim(c, s.core, s'.core, ImageOf(c, m.dram, m.flash), ImageOf(c, m'.dram, m'.flash), g.prom, g.spec, a);
    VictimDrams(c, s, m, u, g, key, value, s'.tables);
    ChunksAreWrites(VictimPage(c, s.core.ops[a]), Chunks(c), got);
    FlashWrites(c, s.tables, s'.tables, g.prom, m.flash, r);
    VictimReads(c, s.core.ops, s'.core.ops, g.prom, u.hist, a);
  }

  lemma VictimMiss(c: Config, k: Core, tb: Tables, active: set<Addr>, a: Addr)
    requires Good(c) && Locked(c, k, tb, active) && a in k.ops && (k.ops[a].victimOut || k.ops[a].lineOut)
    ensures k.ops[a].miss && (k.ops[a].victimOut ==> k.ops[a].victimValid) && Align(c, k.ops[a].txn.addr) == a
    ensures IsSlot(c, k.ops[a].slot)
  {
    hide Locked, Align;
    LockedOpFacts(c, k, tb, a, active);
  }

  lemma ChunksAreWrites(page: nat, n: nat, got: nat -> int)
    ensures forall i :: 0 <= i < |ChunkWrites(page, n, got)| ==> ChunkWrites(page, n, got)[i].Wr?
  {
  }

  lemma PagesAreWrites(slot: Slot, n: nat, content: nat -> int)
    ensures forall i :: 0 <= i < |PageWrites(slot, n, content)| ==> PageWrites(slot, n, content)[i].Wr?
  {
  }

  lemma FlashWrites(c: Config, tb: Tables, tb': Tables, prom: Addr -> Promise, f: Flash, r: seq<Req<FAddr, nat -> int>>)
    requires Good(c) && FlashPromised(c, tb, prom, f) && forall i :: 0 <= i < |r| ==> r[i].Wr?
    requires tb'.flashPending == tb.flashPending && tb'.flashWait == tb.flashWait
    ensures FlashPromised(c, tb', prom, Submit(f, r))
  {
    hide FlashPromised, After, Bursts, ChunkOf;
    FlashSubmitted(c, tb, tb', prom, prom, f, r);
  }

  lemma OnlyThat(wait: set<nat>, x: nat)
    requires wait - {x} == {}
    ensures wait <= {x}
  {
    forall y | y in wait ensures y in {x} { assert y !in wait - {x}; }
  }

  lemma VictimDrams(c: Config, s: Ctl, m: Memories, u: Callers, g: Aux, key: DAddr, value: int, tb': Tables)
    requires Good(c) && DramPromised(s.tables, g.prom, u.hist, m.dram) && Gathered(c, s.tables, g.prom)
             && DramAnswered(s, m, u, g, key, value)
    requires key.slot in s.tables.dramWait && s.tables.dramWait[key.slot] - {key.off} == {}
    requires tb' == VictimTables(s.tables, key.slot)
    ensures DramPromised(tb', g.prom, u.hist, Submit(m.dram, [])) && Gathered(c, tb', g.prom)
  {
    hide DramPromised, VictimSoFar, LineSoFar;
    assert m.dram.q + [] == m.dram.q;
    assert s.tables.dramWait[key.slot] <= {key.off} by { OnlyThat(s.tables.dramWait[key.slot], key.off); }
    DramRetabled(s.tables, tb', g.prom, u.hist, m.dram, key);
  }

  lemma VictimReads(c: Config, ops: Ops, ops': Ops, prom: Addr -> Promise, hist: seq<Request>, a: Addr)
    requires ReadsPromised(ops, prom, hist) && a in ops
    requires ops' == ops - {a} || ops' == ops[a := ops[a].(victimOut := false)]
    ensures ReadsPromised(ops', prom, hist)
  {
  }

  // Flash reads.

  lemma LinePartFaithful(c: Config, s: Ctl, m: Memories, u: Callers, g: Aux, key: FAddr, value: nat -> int, s': Ctl)
    requires Good(c) && Faithful(c, s, m, u, g) && FlashAnswered(c, s, m, g, key, value)
    requires key.page in s.tables.flashGot
    requires s' == s.(tables := s.tables.(
                      flashWait := s.tables.flashWait[key.page := s.tables.flashWait[key.page] - {key.idx}],
                      flashGot := s.tables.flashGot[key.page :=
                          GatherChunk(c, s.tables.flashGot[key.page], key.idx, value)]))
    ensures Faithful(c, s', m, u, g)
  {
    hide Contents, DramPromised, FlashPromised, Ordered, ImageOf, WaitingOf, VictimSoFar, Bursts, ChunkOf;
    FlashRetabled(c, s.tables, s'.tables, g.prom, m.flash, key);
    DramSame(s.tables, s'.tables, g.prom, u.hist, m.dram, []);
    assert m.dram.q + [] == m.dram.q;
  }

  lemma LineGathered(c: Config, s: Ctl, m: Memories, g: Aux, key: FAddr, value: nat -> int)
    requires Good(c) && Gathered(c, s.tables, g.prom) && FlashAnswered(c, s, m, g, key, value)
    requires key.page in s.tables.flashGot && s.tables.flashWait[key.page] - {key.idx} == {}
    ensures var got := GatherChunk(c, s.tables.flashGot[key.page], key.idx, value);
            forall o: nat :: o < Bursts(c) ==> got(o) == g.prom(s.tables.flashPending[key.page].flash).line(o)
  {
    hide VictimsSoFar, Bursts, ChunkOf;
    var wait := s.tables.flashWait[key.page];
    assert LineSoFar(c, wait, s.tables.flashGot[key.page], g.prom(s.tables.flashPending[key.page].flash));
    forall o: nat | o < Bursts(c) && ChunkOf(c, o) != key.idx
      ensures ChunkOf(c, o) !in wait
    {
      assert ChunkOf(c, o) !in wait - {key.idx};
    }
  }

  lemma ImageLine(c: Config, m: Memories, slot: Slot, content: nat -> int)
    requires Good(c)
    ensures var m' := SubmitBoth(m, PageWrites(slot, Bursts(c), content), []);
            var i, i' := ImageOf(c, m.dram, m.flash), ImageOf(c, m'.dram, m'.flash);
            && (forall x :: i'.flash(x) == i.flash(x))
            && (forall x: DAddr ::
               i'.dram(x) == if x.slot == slot && x.off < Bursts(c) then content(x.off) else i.dram(x))
  {
    hide After, ChunkOf, PageWrites, Bursts;
    assert m.flash.q + [] == m.flash.q;
    var m' := SubmitBoth(m, PageWrites(slot, Bursts(c), content), []);
    var i, i' := ImageOf(c, m.dram, m.flash), ImageOf(c, m'.dram, m'.flash);
    forall x: DAddr ensures i'.dram(x) == if x.slot == slot && x.off < Bursts(c) then content(x.off) else i.dram(x) {
      AfterPageWrites(m.dram.mem, m.dram.q, slot, Bursts(c), content, x);
    }
  }

  lemma LineBackFaithful(c: Config, s: Ctl, m: Memories, u: Callers, g: Aux, key: FAddr, value: nat -> int,
      active: set<Addr>, p: Pending, s': Ctl)
    requires Good(c) && Locked(c, s.core, s.tables, active) && Faithful(c, s, m, u, g)
             && FlashAnswered(c, s, m, g, key, value)
    requires key.page in s.tables.flashGot && s.tables.flashWait[key.page] - {key.idx} == {}
             && p == s.tables.flashPending[key.page]
    requires p.flash in s.core.ops && s.core.ops[p.flash].lineOut && PendingOf(s.core.ops[p.flash], p)
             && AfterLine(c, s.core, p.flash, s'.core)
    requires s'.tables == LineTables(s.tables, key.page) && WaitingOf(s'.front) == WaitingOf(s.front)
    ensures var got := GatherChunk(c, s.tables.flashGot[key.page], key.idx, value);
            && Faithful(c, s', SubmitBoth(m, PageWrites(p.slot, Bursts(c), Merged(p, got)), []), u, g)
            && (p.txn.kind == DataRead && Open(s.core.ops[p.flash]) ==>
                  p.txn.id < |u.hist| && got(p.flash.off) == u.hist[p.txn.id].answer)
  {
    hide Contents, DramPromised, FlashPromised, Ordered, ImageOf, WaitingOf, Bursts, Locked, PageOf, Submit,
      PageWrites, GatherChunk, VictimSoFar, LineSoFar, MissGone, Align, TagOf;
    var a := p.flash;
    var got := GatherChunk(c, s.tables.flashGot[key.page], key.idx, value);
    var r := PageWrites(p.slot, Bursts(c), Merged(p, got));
    var m' := SubmitBoth(m, r, []);
    LineGathered(c, s, m, g, key, value);
    ImageLine(c, m, p.slot, Merged(p, got));
    VictimMiss(c, s.core, s.tables, active, a);
    MissIsKnown(c, s.core, s.tables, a, active);
    ContentsLine(c, s.core, s'.core, ImageOf(c, m.dram, m.flash), ImageOf(c, m'.dram, m'.flash), g.prom, g.spec, a);
    LineFlashes(c, s, m, g, key, value, s'.tables);
    PagesAreWrites(p.slot, Bursts(c), Merged(p, got));
    DramSame(s.tables, s'.tables, g.prom, u.hist, m.dram, r);
    LineReads(s.core.ops, s'.core.ops, g.prom, u.hist, a);
    AlignFaithful(c, s.core.ops[a].txn.addr);
  }

  lemma LineFlashes(c: Config, s: Ctl, m: Memories, g: Aux, key: FAddr, value: nat -> int, tb': Tables)
    requires Good(c) && FlashPromised(c, s.tables, g.prom, m.flash) && Gathered(c, s.tables, g.prom)
             && FlashAnswered(c, s, m, g, key, value)
    requires s.tables.flashWait[key.page] - {key.idx} == {} && tb' == LineTables(s.tables, key.page)
    ensures FlashPromised(c, tb', g.prom, Submit(m.flash, [])) && Gathered(c, tb', g.prom)
  {
    hide FlashPromised, VictimSoFar, LineSoFar, Bursts, ChunkOf;
    assert m.flash.q + [] == m.flash.q;
    assert s.tables.flashWait[key.page] <= {key.idx} by { OnlyThat(s.tables.flashWait[key.page], key.idx); }
    FlashRetabled(c, s.tables, tb', g.prom, m.flash, key);
  }

  lemma LineReads(ops: Ops, ops': Ops, prom: Addr -> Promise, hist: seq<Request>, a: Addr)
    requires ReadsPromised(ops, prom, hist) && a in ops
    requires ops' == ops - {a} || ops' == ops[a := ops[a].(lineOut := false)]
    ensures ReadsPromised(ops', prom, hist)
  {
  }

  lemma CriticalFaithful(c: Config, s: Ctl, m: Memories, u: Callers, g: Aux, page: nat, active: set<Addr>, s': Ctl)
    requires Good(c) && Locked(c, s.core, s.tables, active) && Faithful(c, s, m, u, g) && page in s.tables.flashPending
    requires var p := s.tables.flashPending[page];
             && p.flash in s.core.ops && s'.core == SentCore(s.core, p.flash)
             && s'.tables == s.tables.(flashPending := s.tables.flashPending[page := p.(callbackSent := true)])
    requires s'.front == s.front
    ensures Faithful(c, s', m, u, g)
  {
    hide Contents, DramPromised, FlashPromised, Ordered, Locked, ImageOf, WaitingOf, VictimSoFar, LineSoFar;
    SentContents(c, s.core, s.tables, ImageOf(c, m.dram, m.flash), g, s.tables.flashPending[page].flash, active);
    DramSame(s.tables, s'.tables, g.prom, u.hist, m.dram, []);
    assert m.dram.q + [] == m.dram.q;
    SentFlash(c, s.tables, s'.tables, g.prom, m.flash, page);
  }

  lemma SentContents(c: Config, k: Core, tb: Tables, i: Image, g: Aux, a: Addr, active: set<Addr>)
    requires Good(c) && Locked(c, k, tb, active) && Contents(c, k, i, g.prom, g.spec) && a in k.ops
    ensures Contents(c, SentCore(k, a), i, g.prom, g.spec)
  {
    hide Contents, Locked;
    MissOwners(c, k, tb, active);
    ContentsKept(c, k, SentCore(k, a), i, g.prom, g.spec);
  }

  lemma SentFlash(c: Config, tb: Tables, tb': Tables, prom: Addr -> Promise, f: Flash, page: nat)
    requires Good(c) && FlashPromised(c, tb, prom, f) && page in tb.flashPending
    requires tb'.flashPending == tb.flashPending[page := tb.flashPending[page].(callbackSent := true)]
             && tb'.flashWait == tb.flashWait
    ensures FlashPromised(c, tb', prom, f)
  {
    hide FlashPromised, Bursts, ChunkOf, After;
    assert f.q + [] == f.q;
    FlashSubmitted(c, tb, tb', prom, prom, f, []);
  }

  /** The critical line is the missed burst: read from flash ahead of its chunk, or already received. */
  lemma CriticalValue(c: Config, s: Ctl, m: Memories, u: Callers, g: Aux, page: nat, v: nat -> int)
    requires Good(c) && Faithful(c, s, m, u, g) && page in s.tables.flashPending && page in s.tables.flashWait
             && page in s.tables.flashGot
    requires var p := s.tables.flashPending[page];
             && p.flash in s.core.ops && s.core.ops[p.flash].miss && Open(s.core.ops[p.flash])
                && s.core.ops[p.flash].txn.kind == DataRead
             && p.flash.off < Bursts(c)
             && if ChunkOf(c, p.flash.off) in s.tables.flashWait[page] then
                  FlashReadOk(c, s.tables, g.prom, FAddr(page, ChunkOf(c, p.flash.off)), v)
                else v == s.tables.flashGot[page]
    ensures var a := s.tables.flashPending[page].flash;
            var id := s.core.ops[a].txn.id;
            id < |u.hist| && v(a.off) == u.hist[id].answer
  {
    hide Contents, DramPromised, FlashPromised, Ordered, ImageOf, WaitingOf, VictimsSoFar, Bursts, ChunkOf;
    var p := s.tables.flashPending[page];
    if ChunkOf(c, p.flash.off) !in s.tables.flashWait[page] {
      assert LineSoFar(c, s.tables.flashWait[page], s.tables.flashGot[page], g.prom(p.flash));
    }
  }
}
