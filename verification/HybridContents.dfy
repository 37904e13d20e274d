/**
 What the DRAM and the flash contain, seen through their queues.  `spec` is a flat memory to which
 the looked-up writes have been applied; every page has its current contents in the place the
 tables say: the cached line, the flash, or a read that is on its way.
 */
module HybridContents {
  import opened Basics
  import opened HybridGeometry
  import opened InOrderMemory
  import opened HybridController
  import opened HybridLocks
  import opened HybridTables
  import opened HybridLockSteps
  import opened HybridMissSteps
  import opened HybridCallbacks

  /** What the reads of a miss will return: the page from flash, and the victim from DRAM. */
  datatype Promise = Promise(line: nat -> int, victim: nat -> int)

  datatype Image = Image(dram: DAddr -> int, flash: Addr -> int)

  /** No refill is on its way to the line. */
  ghost predicate Settled(ops: Ops, slot: Slot) {
    forall a :: a in ops && ops[a].slot == slot ==> !ops[a].lineOut
  }

  /** The burst of a page being fetched, once a write miss has been merged. */
  ghost function Landing(op: Op, a: Addr, line: nat -> int, o: nat): int {
    if op.txn.kind == DataWrite && o == a.off then op.txn.data else line(o)
  }

  ghost predicate CachedOk(c: Config, k: Core, m: Image, slot: Slot, page: nat, o: nat, v: int)
    requires Good(c)
  {
    IsSlot(c, slot) && Caches(c, k.cache, slot, page) && Settled(k.ops, slot) ==>
      m.dram(DAddr(slot, o)) == v && (!LineIn(k.cache, slot).dirty ==> m.flash(Addr(page, o)) == v)
  }

  ghost predicate OwnedOk(op: Op, a: Addr, m: Image, pr: Promise, page: nat, o: nat, v: int) {
    if page == a.page then
      op.lineOut ==> m.flash(Addr(page, o)) == pr.line(o) && Landing(op, a, pr.line, o) == v
    else if op.victimOut then pr.victim(o) == v
    else m.flash(Addr(page, o)) == v
  }

  ghost predicate BurstOk(c: Config, k: Core, m: Image, prom: Addr -> Promise, page: nat, o: nat, v: int)
    requires Good(c)
  {
    && (forall slot :: CachedOk(c, k, m, slot, page, o, v))
    && (page !in k.owner && Absent(c, k.cache, page) ==> m.flash(Addr(page, o)) == v)
    && (page in k.owner && k.owner[page] in k.ops ==>
          OwnedOk(k.ops[k.owner[page]], k.owner[page], m, prom(k.owner[page]), page, o, v))
  }

  ghost predicate Contents(c: Config, k: Core, m: Image, prom: Addr -> Promise, spec: Addr -> int)
    requires Good(c)
  {
    forall page: nat, o: nat :: o < Bursts(c) ==> BurstOk(c, k, m, prom, page, o, spec(Addr(page, o)))
  }

  // Lookups.

  /** A change of locks and timestamps only; DRAM and flash images agree. */
  ghost predicate SameLines(cache: Cache, cache': Cache) {
    forall slot ::
      LineIn(cache', slot).valid == LineIn(cache, slot).valid && LineIn(cache', slot).tag == LineIn(cache, slot).tag
                   && LineIn(cache', slot).dirty == LineIn(cache, slot).dirty
  }

  lemma SameLinesCaches(c: Config, cache: Cache, cache': Cache)
    requires Good(c) && SameLines(cache, cache')
    ensures forall slot, page :: Caches(c, cache', slot, page) == Caches(c, cache, slot, page)
    ensures forall page :: Absent(c, cache', page) == Absent(c, cache, page)
  {
    hide SetOf, TagOf, NumSets;
    assert forall slot, page :: Caches(c, cache', slot, page) == Caches(c, cache, slot, page);
  }

  /** A step that moves no data: lines keep tag and dirtiness, misses keep their reads. */
  lemma ContentsKept(c: Config, k: Core, k': Core, m: Image, prom: Addr -> Promise, spec: Addr -> int)
    requires Good(c) && Contents(c, k, m, prom, spec) && SameLines(k.cache, k'.cache) && k'.owner == k.owner
    requires forall a :: a in k.ops && k.ops[a].miss ==>
               a in k'.ops && k'.ops[a] == k.ops[a].(sent := k'.ops[a].sent)
    requires forall a :: a in k'.ops && k'.ops[a].lineOut ==> a in k.ops && k.ops[a].miss
    requires forall p :: p in k.owner ==> k.owner[p] in k.ops && k.ops[k.owner[p]].miss
    requires forall a :: a in k.ops && k.ops[a].lineOut ==> k.ops[a].miss
    ensures Contents(c, k', m, prom, spec)
  {
    hide SetOf, TagOf, NumSets, Caches, Absent;
    SameLinesCaches(c, k.cache, k'.cache);
    forall slot ensures Settled(k'.ops, slot) == Settled(k.ops, slot) {
      if Settled(k'.ops, slot) {
        forall a | a in k.ops && k.ops[a].slot == slot ensures !k.ops[a].lineOut {
          if k.ops[a].miss { assert k'.ops[a].slot == slot; }
        }
      }
    }
    forall page: nat, o: nat | o < Bursts(c) ensures BurstOk(c, k', m, prom, page, o, spec(Addr(page, o))) {
      var v := spec(Addr(page, o));
      assert BurstOk(c, k, m, prom, page, o, v);
      forall slot ensures CachedOk(c, k', m, slot, page, o, v) { assert CachedOk(c, k, m, slot, page, o, v); }
    }
  }

  lemma ContentsImage(c: Config, k: Core, m: Image, m': Image, prom: Addr -> Promise, spec: Addr -> int)
    requires Good(c) && Contents(c, k, m, prom, spec)
    requires forall x :: m'.dram(x) == m.dram(x)
    requires forall x :: m'.flash(x) == m.flash(x)
    ensures Contents(c, k, m', prom, spec)
  {
    hide Caches, Absent, Settled;
    forall page: nat, o: nat | o < Bursts(c) ensures BurstOk(c, k, m', prom, page, o, spec(Addr(page, o))) {
      var v := spec(Addr(page, o));
      assert BurstOk(c, k, m, prom, page, o, v);
      forall slot ensures CachedOk(c, k, m', slot, page, o, v) { assert CachedOk(c, k, m, slot, page, o, v); }
    }
  }

  /** What a read hit will be told is what the flat memory holds. */
  lemma HitValue(c: Config, k: Core, tb: Tables, m: Image, prom: Addr -> Promise, spec: Addr -> int, t: Txn, a: Addr,
      slot: Slot)
    requires Good(c) && Contents(c, k, m, prom, spec) && HitReady(c, k, tb, t, a, slot) && a.off < Bursts(c)
    ensures m.dram(DAddr(slot, a.off)) == spec(a)
  {
    hide Locked, Align, SetOf, TagOf, NumSets, Caches, Absent;
    HitSettled(c, k, tb, t, a, slot);
    assert BurstOk(c, k, m, prom, a.page, a.off, spec(Addr(a.page, a.off)));
    assert CachedOk(c, k, m, slot, a.page, a.off, spec(a));
  }

  lemma HitSettled(c: Config, k: Core, tb: Tables, t: Txn, a: Addr, slot: Slot)
    requires Good(c) && HitReady(c, k, tb, t, a, slot)
    ensures Settled(k.ops, slot) && a.page !in k.owner && a !in k.ops
    ensures forall x :: IsSlot(c, x) && Caches(c, k.cache, x, a.page) ==> x == slot
  {
    hide Tabled, Counted, Align, SetOf, TagOf, PageOf, NumSets;
    assert a in {a};
    forall b | b in k.ops && k.ops[b].slot == slot ensures !k.ops[b].lineOut {
      FreePageNoMiss(c, k, slot, a.page, b, {a});
      assert OpShape(c, b, k.ops[b]);
    }
    forall x | IsSlot(c, x) && Caches(c, k.cache, x, a.page) ensures x == slot { OneSlot(c, k.cache, x, slot, a.page); }
  }

  lemma ContentsWrite(c: Config, k: Core, k': Core, m: Image, m': Image, prom: Addr -> Promise, spec: Addr -> int,
      a: Addr, slot: Slot, data: int)
    requires Good(c) && Contents(c, k, m, prom, spec) && IsSlot(c, slot) && Caches(c, k.cache, slot, a.page)
    requires a.page !in k.owner && forall x :: IsSlot(c, x) && Caches(c, k.cache, x, a.page) ==> x == slot
    requires k'.ops == k.ops && k'.owner == k.owner
    requires forall x :: x != slot ==> LineIn(k'.cache, x) == LineIn(k.cache, x)
    requires LineIn(k'.cache, slot).dirty && SameTag(LineIn(k.cache, slot), LineIn(k'.cache, slot))
    requires forall x :: m'.dram(x) == if x == DAddr(slot, a.off) then data else m.dram(x)
    requires forall x :: m'.flash(x) == m.flash(x)
    ensures Contents(c, k', m', prom, Store(spec, a, data))
  {
    hide SetOf, TagOf, NumSets, Settled;
    var spec' := Store(spec, a, data);
    assert forall x, p :: Caches(c, k'.cache, x, p) == Caches(c, k.cache, x, p);
    forall page: nat, o: nat | o < Bursts(c) ensures BurstOk(c, k', m', prom, page, o, spec'(Addr(page, o))) {
      var v := spec(Addr(page, o));
      assert BurstOk(c, k, m, prom, page, o, v);
      forall x ensures CachedOk(c, k', m', x, page, o, spec'(Addr(page, o))) {
        assert CachedOk(c, k, m, x, page, o, v);
        if x == slot && IsSlot(c, x) && Caches(c, k.cache, x, page) { OnePage(c, k.cache, slot, a.page, page); }
      }
      assert Absent(c, k'.cache, page) ==> Absent(c, k.cache, page) by {
        if Absent(c, k'.cache, page) {
          forall x | IsSlot(c, x) ensures !Caches(c, k.cache, x, page) { assert !Caches(c, k'.cache, x, page); }
        }
      }
    }
  }

  // Misses.

  lemma ContentsMiss(c: Config, k: Core, tb: Tables, m: Image, prom: Addr -> Promise, spec: Addr -> int, t: Txn,
      a: Addr, slot: Slot,
                     m': Image, prom': Addr -> Promise, spec': Addr -> int)
    requires Good(c) && Contents(c, k, m, prom, spec) && MissReady(c, k, tb, t, a)
    requires slot == MissSlot(c, k.cache, SetOf(c, a.page))
    requires forall x :: m'.dram(x) == m.dram(x)
    requires forall x :: m'.flash(x) == m.flash(x)
    requires forall x :: x != a ==> prom'(x) == prom(x)
    requires forall o: nat ::
             o < Bursts(c) ==>
             prom'(a).line(o) == m.flash(Addr(a.page, o)) && prom'(a).victim(o) == m.dram(DAddr(slot, o))
    requires forall x :: spec'(x) == if t.kind == DataWrite && x == a then t.data else spec(x)
    ensures Contents(c, MissCore(c, k, t, a, slot), m', prom', spec')
  {
    hide Locked, Align, SetOf, TagOf, PageOf, NumSets, MissSlot;
    MissFacts(c, k, tb, t, a);
    MissOwners(c, k, tb, {a});
    var k' := MissCore(c, k, t, a, slot);
    assert SameLines(k.cache, k'.cache);
    SameLinesCaches(c, k.cache, k'.cache);
    forall page: nat, o: nat | o < Bursts(c) ensures BurstOk(c, k', m', prom', page, o, spec'(Addr(page, o))) {
      MissBurst(c, k, m, prom, spec, t, a, slot, m', prom', spec', page, o);
    }
  }

  lemma MissOwners(c: Config, k: Core, tb: Tables, active: set<Addr>)
    requires Good(c) && Locked(c, k, tb, active)
    ensures forall p :: p in k.owner ==> k.owner[p] in k.ops && k.ops[k.owner[p]].miss
    ensures forall a :: a in k.ops && k.ops[a].lineOut ==> k.ops[a].miss
    ensures forall a :: a in k.ops && k.ops[a].miss ==> a.page in k.owner && k.owner[a.page] == a
    ensures k.owner.Keys == k.pendingPages.Keys
  {
    hide Tabled, Counted, Lines, Align, SetOf, TagOf, PageOf, NumSets;
    forall p | p in k.owner ensures k.owner[p] in k.ops && k.ops[k.owner[p]].miss {
      assert Owned(c, k.ops, k.owner[p], p, k.pendingPages[p]);
    }
    forall a | a in k.ops && k.ops[a].lineOut ensures k.ops[a].miss { assert OpShape(c, a, k.ops[a]); }
    forall a | a in k.ops && k.ops[a].miss
      ensures a.page in k.owner && k.owner[a.page] == a
    {
      assert Owns(c, k.owner, a, k.ops[a]);
    }
  }

  lemma MissBurst(c: Config, k: Core, m: Image, prom: Addr -> Promise, spec: Addr -> int, t: Txn, a: Addr, slot: Slot,
                  m': Image, prom': Addr -> Promise, spec': Addr -> int, page: nat, o: nat)
    requires Good(c) && Contents(c, k, m, prom, spec) && o < Bursts(c) && IsSlot(c, slot)
    requires var l := LineIn(k.cache, slot);
             && a !in k.ops && a.page !in k.owner && Absent(c, k.cache, a.page)
             && (forall b :: b in k.ops ==> k.ops[b].slot != slot)
             && (l.valid ==> PageOf(c, l.tag, slot.set_) != a.page && PageOf(c, l.tag, slot.set_) !in k.owner)
             && (l.dirty ==> l.valid)
    requires forall p :: p in k.owner ==> k.owner[p] in k.ops
    requires forall x :: m'.dram(x) == m.dram(x)
    requires forall x :: m'.flash(x) == m.flash(x)
    requires forall x :: x != a ==> prom'(x) == prom(x)
    requires prom'(a).line(o) == m.flash(Addr(a.page, o)) && prom'(a).victim(o) == m.dram(DAddr(slot, o))
    requires forall x :: spec'(x) == if t.kind == DataWrite && x == a then t.data else spec(x)
    ensures BurstOk(c, MissCore(c, k, t, a, slot), m', prom', page, o, spec'(Addr(page, o)))
  {
    hide SetOf, TagOf, PageOf, NumSets, Contents;
    var k' := MissCore(c, k, t, a, slot);
    var v := spec(Addr(page, o));
    assert BurstOk(c, k, m, prom, page, o, v) by { ContentsAt(c, k, m, prom, spec, page, o); }
    SameLinesCaches(c, k.cache, k'.cache);
    forall x ensures CachedOk(c, k', m', x, page, o, spec'(Addr(page, o))) {
      assert CachedOk(c, k, m, x, page, o, v);
      assert k'.ops[a].slot == slot && k'.ops[a].lineOut;
      if x != slot && Settled(k'.ops, x) {
        assert Settled(k.ops, x) by {
          forall b | b in k.ops && k.ops[b].slot == x ensures !k.ops[b].lineOut { assert k'.ops[b] == k.ops[b]; }
        }
      }
    }
    var l := LineIn(k.cache, slot);
    if l.valid && page == PageOf(c, l.tag, slot.set_) {
      VictimIsCached(c, k.cache, slot);
      assert Settled(k.ops, slot);
      assert CachedOk(c, k, m, slot, page, o, v);
    }
  }

  lemma ContentsAt(c: Config, k: Core, m: Image, prom: Addr -> Promise, spec: Addr -> int, page: nat, o: nat)
    requires Good(c) && Contents(c, k, m, prom, spec) && o < Bursts(c)
    ensures BurstOk(c, k, m, prom, page, o, spec(Addr(page, o)))
  {
  }

  /** The facts about one miss that its reads rely on when they come back. */
  ghost predicate MissKnown(c: Config, k: Core, a: Addr)
    requires Good(c)
  {
    && a in k.ops && OpShape(c, a, k.ops[a]) && k.ops[a].miss && LineOf(c, k.cache, a, k.ops[a])
    && (forall b :: b in k.ops && b != a ==> k.ops[b].slot != k.ops[a].slot)
    && (forall p :: p in k.owner ==> k.owner[p] in k.ops)
    && (forall p :: p in k.owner && k.owner[p] == a ==> p in MissGone(c, a, k.ops[a]))
    && (forall p :: p in MissGone(c, a, k.ops[a]) ==> p in k.owner && k.owner[p] == a)
    && (k.ops[a].victimValid ==> VictimPage(c, k.ops[a]) != a.page)
    && UniqueTags(c, k.cache)
  }

  lemma MissIsKnown(c: Config, k: Core, tb: Tables, a: Addr, active: set<Addr>)
    requires Good(c) && Locked(c, k, tb, active) && a in k.ops && k.ops[a].miss
    ensures MissKnown(c, k, a)
  {
    hide Tabled, Counted, Lines, Held, Align, SetOf, TagOf, PageOf, NumSets, UniqueTags, OpShape, LineOf, MissGone;
    LockedOpFacts(c, k, tb, a, active);
    MissAlone(c, k, a, active);
    MissOwners(c, k, tb, active);
    MissPagesOwned(c, k, a, active);
    TagsUnique(c, k.cache, k.ops);
  }

  lemma TagsUnique(c: Config, cache: Cache, ops: Ops)
    requires Good(c) && Lines(c, cache, ops)
    ensures UniqueTags(c, cache)
  {
  }

  lemma MissPagesOwned(c: Config, k: Core, a: Addr, active: set<Addr>)
    requires Good(c) && Held(c, k, active) && a in k.ops && k.ops[a].miss
    ensures forall p :: p in k.owner && k.owner[p] == a ==> p in MissGone(c, a, k.ops[a])
    ensures forall p :: p in MissGone(c, a, k.ops[a]) ==> p in k.owner && k.owner[p] == a
    ensures k.ops[a].victimValid ==> VictimPage(c, k.ops[a]) != a.page
  {
    hide Shaped, PageOf, NumSets;
    assert Owns(c, k.owner, a, k.ops[a]);
    forall p | p in k.owner && k.owner[p] == a ensures p in MissGone(c, a, k.ops[a]) {
      assert Owned(c, k.ops, k.owner[p], p, k.pendingPages[p]);
    }
  }

  /** The cores a returning victim read can leave behind: the miss goes on, or it is over. */
  ghost predicate AfterVictim(c: Config, k: Core, a: Addr, k': Core)
    requires Good(c) && a in k.ops
  {
    && SameLines(k.cache, k'.cache)
    && if k.ops[a].lineOut then k'.owner == k.owner && k'.ops == k.ops[a := k.ops[a].(victimOut := false)]
       else k'.owner == k.owner - MissGone(c, a, k.ops[a]) && k'.ops == k.ops - {a}
  }

  lemma ContentsVictim(c: Config, k: Core, k': Core, m: Image, m': Image, prom: Addr -> Promise, spec: Addr -> int,
      a: Addr)
    requires Good(c) && Contents(c, k, m, prom, spec) && MissKnown(c, k, a) && k.ops[a].victimOut
             && AfterVictim(c, k, a, k')
    requires forall x :: m'.dram(x) == m.dram(x)
    requires forall x: Addr :: x.off < Bursts(c) ==>
               m'.flash(x) == if x.page == VictimPage(c, k.ops[a]) then prom(a).victim(x.off) else m.flash(x)
    ensures Contents(c, k', m', prom, spec)
  {
    hide SetOf, TagOf, PageOf, NumSets, Align;
    SameLinesCaches(c, k.cache, k'.cache);
    forall page: nat, o: nat | o < Bursts(c) ensures BurstOk(c, k', m', prom, page, o, spec(Addr(page, o))) {
      VictimBurst(c, k, k', m, m', prom, a, page, o, spec(Addr(page, o)));
    }
  }

  lemma VictimBurst(c: Config, k: Core, k': Core, m: Image, m': Image, prom: Addr -> Promise, a: Addr, page: nat,
      o: nat, v: int)
    requires Good(c) && MissKnown(c, k, a) && k.ops[a].victimOut && AfterVictim(c, k, a, k')
    requires BurstOk(c, k, m, prom, page, o, v) && o < Bursts(c)
    requires forall x :: m'.dram(x) == m.dram(x)
    requires m'.flash(Addr(page, o)) == if page == VictimPage(c, k.ops[a]) then prom(a).victim(o)
             else m.flash(Addr(page, o))
    ensures BurstOk(c, k', m', prom, page, o, v)
  {
    hide SetOf, TagOf, PageOf, NumSets, Align, UniqueTags;
    SameLinesCaches(c, k.cache, k'.cache);
    var victim := VictimPage(c, k.ops[a]);
    assert victim in MissGone(c, a, k.ops[a]);
    forall x ensures CachedOk(c, k', m', x, page, o, v) {
      assert CachedOk(c, k, m, x, page, o, v);
      SettledVictim(c, k, k', a, x);
    }
  }

  lemma SettledVictim(c: Config, k: Core, k': Core, a: Addr, x: Slot)
    requires Good(c) && MissKnown(c, k, a) && AfterVictim(c, k, a, k')
    ensures Settled(k'.ops, x) ==> Settled(k.ops, x)
  {
    hide SetOf, TagOf, PageOf, NumSets, Align, UniqueTags, LineOf, SameLines;
    if Settled(k'.ops, x) {
      forall b | b in k.ops && k.ops[b].slot == x ensures !k.ops[b].lineOut {
        if b in k'.ops { assert k'.ops[b].slot == x; }
      }
    }
  }

  ghost predicate AfterLine(c: Config, k: Core, a: Addr, k': Core)
    requires Good(c) && a in k.ops
  {
    var slot := k.ops[a].slot;
    && (forall x :: x != slot ==> LineIn(k'.cache, x) == LineIn(k.cache, x))
    && LineIn(k'.cache, slot).valid && LineIn(k'.cache, slot).tag == TagOf(c, a.page)
    && LineIn(k'.cache, slot).dirty == (k.ops[a].txn.kind == DataWrite)
    && if k.ops[a].victimOut then k'.owner == k.owner && k'.ops == k.ops[a := k.ops[a].(lineOut := false)]
       else k'.owner == k.owner - MissGone(c, a, k.ops[a]) && k'.ops == k.ops - {a}
  }

  lemma ContentsLine(c: Config, k: Core, k': Core, m: Image, m': Image, prom: Addr -> Promise, spec: Addr -> int,
      a: Addr)
    requires Good(c) && Contents(c, k, m, prom, spec) && MissKnown(c, k, a) && k.ops[a].lineOut
             && AfterLine(c, k, a, k')
    requires forall x: DAddr :: x.slot != k.ops[a].slot ==> m'.dram(x) == m.dram(x)
    requires forall o: nat ::
             o < Bursts(c) ==> m'.dram(DAddr(k.ops[a].slot, o)) == Landing(k.ops[a], a, prom(a).line, o)
    requires forall x :: m'.flash(x) == m.flash(x)
    ensures Contents(c, k', m', prom, spec)
  {
    hide SetOf, TagOf, PageOf, NumSets, Align, MissKnown, AfterLine, BurstOk;
    forall page: nat, o: nat | o < Bursts(c) ensures BurstOk(c, k', m', prom, page, o, spec(Addr(page, o))) {
      LineBurst(c, k, k', m, m', prom, a, page, o, spec(Addr(page, o)));
    }
  }

  lemma LineBurst(c: Config, k: Core, k': Core, m: Image, m': Image, prom: Addr -> Promise, a: Addr, page: nat, o: nat,
      v: int)
    requires Good(c) && MissKnown(c, k, a) && k.ops[a].lineOut && AfterLine(c, k, a, k')
    requires BurstOk(c, k, m, prom, page, o, v) && o < Bursts(c)
    requires forall x: DAddr :: x.slot != k.ops[a].slot ==> m'.dram(x) == m.dram(x)
    requires m'.dram(DAddr(k.ops[a].slot, o)) == Landing(k.ops[a], a, prom(a).line, o)
    requires forall x :: m'.flash(x) == m.flash(x)
    ensures BurstOk(c, k', m', prom, page, o, v)
  {
    hide SetOf, TagOf, PageOf, NumSets, Align, UniqueTags;
    var slot := k.ops[a].slot;
    assert a.page in MissGone(c, a, k.ops[a]);
    forall x ensures CachedOk(c, k', m', x, page, o, v) {
      assert CachedOk(c, k, m, x, page, o, v);
      if x != slot {
        SettledLine(c, k, k', a, x);
      } else if Caches(c, k'.cache, slot, page) {
        PageSplit(c, page);
        PageSplit(c, a.page);
      }
    }
    assert Caches(c, k'.cache, slot, a.page);
    if page !in k'.owner && Absent(c, k'.cache, page) && page !in MissGone(c, a, k.ops[a]) {
      forall x | IsSlot(c, x) ensures !Caches(c, k.cache, x, page) {
        assert !Caches(c, k'.cache, x, page);
        if x == slot && Caches(c, k.cache, slot, page) { PageSplit(c, page); }
      }
    }
  }

  lemma SettledLine(c: Config, k: Core, k': Core, a: Addr, x: Slot)
    requires Good(c) && MissKnown(c, k, a) && AfterLine(c, k, a, k') && x != k.ops[a].slot
    ensures Settled(k'.ops, x) ==> Settled(k.ops, x)
  {
    hide SetOf, TagOf, PageOf, NumSets, Align, UniqueTags, LineOf;
    if Settled(k'.ops, x) {
      forall b | b in k.ops && k.ops[b].slot == x ensures !k.ops[b].lineOut {
        assert b in k'.ops && k'.ops[b].slot == x;
      }
    }
  }
}
