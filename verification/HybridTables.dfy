/** How each elementary change of the lock tables keeps the predicates of HybridLocks. */
module HybridTables {
  import opened Basics
  import opened HybridGeometry
  import opened InOrderMemory
  import opened HybridController
  import opened HybridLocks

  // Addresses and pages held.

  lemma ShapedUpdate(c: Config, ops: Ops, a: Addr, op: Op)
    requires Good(c) && Shaped(c, ops) && OpShape(c, a, op)
    requires if a in ops then op.miss == ops[a].miss && op.slot == ops[a].slot
             else forall b :: b in ops && ops[b].slot == op.slot ==> !ops[b].miss && !op.miss
    ensures Shaped(c, ops[a := op])
  {
    var ops' := ops[a := op];
    forall b | b in ops' && ops'[b].miss ensures Exclusive(ops', b) {
      if b in ops { assert ops[b].miss && Exclusive(ops, b); }
    }
  }

  lemma ShapedRemove(c: Config, ops: Ops, a: Addr)
    requires Good(c) && Shaped(c, ops)
    ensures Shaped(c, ops - {a})
  {
    var ops' := ops - {a};
    forall b | b in ops' && ops'[b].miss ensures Exclusive(ops', b) { assert Exclusive(ops, b); }
  }

  lemma HeldDispatch(c: Config, k: Core, a: Addr)
    requires Good(c) && Held(c, k, {}) && a !in k.pendingFlash && a.page !in k.pendingPages
    ensures Held(c, k.(pendingFlash := k.pendingFlash + {a}), {a})
  {
    hide Shaped, Paged;
  }

  lemma HeldDropActive(c: Config, k: Core, a: Addr)
    requires Good(c) && Held(c, k, {a})
    ensures Held(c, k.(pendingFlash := k.pendingFlash - {a}), {})
  {
    hide Shaped, Paged;
    assert a in {a};
  }

  lemma HeldAddHit(c: Config, k: Core, a: Addr, op: Op)
    requires Good(c) && Held(c, k, {a}) && OpShape(c, a, op) && !op.miss
    requires forall b :: b in k.ops && k.ops[b].slot == op.slot ==> !k.ops[b].miss
    ensures Held(c, k.(ops := k.ops[a := op]), {})
  {
    assert a in {a};
    ShapedUpdate(c, k.ops, a, op);
    PagedAddHit(c, k.ops, k.owner, k.pendingPages, a, op);
    hide Shaped, Paged;
  }

  lemma PagedAddHit(c: Config, ops: Ops, owner: map<nat, Addr>, pages: map<nat, int>, a: Addr, op: Op)
    requires Good(c) && Paged(c, ops, owner, pages) && a !in ops && a.page !in pages && !op.miss
    ensures Paged(c, ops[a := op], owner, pages)
  {
    hide PageOf, NumSets;
    forall p | p in owner ensures Owned(c, ops[a := op], owner[p], p, pages[p]) {
      assert Owned(c, ops, owner[p], p, pages[p]);
    }
  }

  lemma HeldEndHit(c: Config, k: Core, a: Addr, active: set<Addr>)
    requires Good(c) && Held(c, k, active) && a in k.ops && !k.ops[a].miss
    ensures Held(c, k.(ops := k.ops - {a}, pendingFlash := k.pendingFlash - {a}), active)
  {
    ShapedRemove(c, k.ops, a);
    PagedEndHit(c, k.ops, k.owner, k.pendingPages, a);
    hide Shaped, Paged;
  }

  lemma PagedEndHit(c: Config, ops: Ops, owner: map<nat, Addr>, pages: map<nat, int>, a: Addr)
    requires Good(c) && Paged(c, ops, owner, pages) && a in ops && !ops[a].miss
    ensures Paged(c, ops - {a}, owner, pages)
  {
    hide PageOf, NumSets;
    forall p | p in owner ensures Owned(c, ops - {a}, owner[p], p, pages[p]) {
      assert Owned(c, ops, owner[p], p, pages[p]);
    }
  }

  ghost function MissOwner(c: Config, owner: map<nat, Addr>, a: Addr, op: Op): map<nat, Addr>
    requires Good(c)
  {
    if op.victimValid then owner[a.page := a][VictimPage(c, op) := a] else owner[a.page := a]
  }

  ghost function MissPages(c: Config, pages: map<nat, int>, a: Addr, op: Op): map<nat, int>
    requires Good(c)
  {
    var pages := pages[a.page := Outstanding(op)];
    if op.victimValid then pages[VictimPage(c, op) := 0] else pages
  }

  lemma HeldAddMiss(c: Config, k: Core, a: Addr, op: Op)
    requires Good(c) && Held(c, k, {a}) && OpShape(c, a, op) && op.miss
    requires forall b :: b in k.ops ==> k.ops[b].slot != op.slot && b.page != a.page
    requires op.victimValid ==> VictimPage(c, op) !in k.pendingPages && VictimPage(c, op) != a.page
                                && forall b :: b in k.ops ==> b.page != VictimPage(c, op)
    ensures Held(c, k.(ops := k.ops[a := op], owner := MissOwner(c, k.owner, a, op),
                       pendingPages := MissPages(c, k.pendingPages, a, op)), {})
  {
    assert a in {a};
    ShapedUpdate(c, k.ops, a, op);
    PagedAddMiss(c, k.ops, k.owner, k.pendingPages, a, op);
    hide Shaped, Paged;
  }

  lemma PagedAddMiss(c: Config, ops: Ops, owner: map<nat, Addr>, pages: map<nat, int>, a: Addr, op: Op)
    requires Good(c) && Paged(c, ops, owner, pages) && a !in ops && a.page !in pages && op.miss
    requires forall b :: b in ops ==> b.page != a.page
    requires op.victimValid ==> VictimPage(c, op) !in pages && VictimPage(c, op) != a.page
                                && forall b :: b in ops ==> b.page != VictimPage(c, op)
    ensures Paged(c, ops[a := op], MissOwner(c, owner, a, op), MissPages(c, pages, a, op))
  {
    hide PageOf, NumSets;
    var ops', owner', pages' := ops[a := op], MissOwner(c, owner, a, op), MissPages(c, pages, a, op);
    forall p | p in owner' ensures Owned(c, ops', owner'[p], p, pages'[p]) {
      if p in owner { assert Owned(c, ops, owner[p], p, pages[p]); }
    }
    forall b | b in ops' ensures Owns(c, owner', b, ops'[b]) {
      if b != a { assert Owns(c, owner, b, ops[b]); }
    }
  }

  /** One of the reads of a miss comes back, or its callback is sent early; the miss goes on. */
  lemma HeldProgress(c: Config, k: Core, a: Addr, op: Op, active: set<Addr>)
    requires Good(c) && Held(c, k, active) && a in k.ops && k.ops[a].miss && OpShape(c, a, op) && op.miss
    requires op.slot == k.ops[a].slot && op.victimTag == k.ops[a].victimTag && op.victimValid == k.ops[a].victimValid
    ensures Held(c, k.(ops := k.ops[a := op], pendingPages := k.pendingPages[a.page := Outstanding(op)]), active)
  {
    ShapedUpdate(c, k.ops, a, op);
    PagedProgress(c, k.ops, k.owner, k.pendingPages, a, op);
    hide Shaped, Paged;
  }

  lemma PagedProgress(c: Config, ops: Ops, owner: map<nat, Addr>, pages: map<nat, int>, a: Addr, op: Op)
    requires Good(c) && Paged(c, ops, owner, pages) && a in ops && ops[a].miss && op.miss
    requires op.slot == ops[a].slot && op.victimTag == ops[a].victimTag && op.victimValid == ops[a].victimValid
    ensures a.page in pages
    ensures Paged(c, ops[a := op], owner, pages[a.page := Outstanding(op)])
  {
    hide PageOf, NumSets;
    assert Owns(c, owner, a, ops[a]);
    var pages' := pages[a.page := Outstanding(op)];
    forall p | p in owner ensures Owned(c, ops[a := op], owner[p], p, pages'[p]) {
      assert Owned(c, ops, owner[p], p, pages[p]);
    }
  }

  ghost function MissGone(c: Config, a: Addr, op: Op): set<nat>
    requires Good(c)
  {
    {a.page} + if op.victimValid then {VictimPage(c, op)} else {}
  }

  lemma HeldEndMiss(c: Config, k: Core, a: Addr, active: set<Addr>)
    requires Good(c) && Held(c, k, active) && a in k.ops && k.ops[a].miss
    ensures var gone := MissGone(c, a, k.ops[a]);
            Held(c, k.(ops := k.ops - {a}, pendingFlash := k.pendingFlash - {a},
                       owner := k.owner - gone, pendingPages := k.pendingPages - gone), active)
  {
    ShapedRemove(c, k.ops, a);
    PagedEndMiss(c, k.ops, k.owner, k.pendingPages, a);
    hide Shaped, Paged;
  }

  lemma PagedEndMiss(c: Config, ops: Ops, owner: map<nat, Addr>, pages: map<nat, int>, a: Addr)
    requires Good(c) && Paged(c, ops, owner, pages) && a in ops && ops[a].miss
    ensures var gone := MissGone(c, a, ops[a]); Paged(c, ops - {a}, owner - gone, pages - gone)
  {
    hide PageOf, NumSets;
    var gone := MissGone(c, a, ops[a]);
    var ops', owner', pages' := ops - {a}, owner - gone, pages - gone;
    assert Owns(c, owner, a, ops[a]);
    forall p | p in owner' ensures Owned(c, ops', owner'[p], p, pages'[p]) {
      assert Owned(c, ops, owner[p], p, pages[p]);
    }
    forall b | b in ops' ensures Owns(c, owner', b, ops'[b]) {
      assert Owns(c, owner, b, ops[b]);
    }
  }

  // Lines.

  lemma HoldersAdd(ops: Ops, a: Addr, op: Op, slot: Slot)
    requires a !in ops
    ensures |Holders(ops[a := op], slot)| == |Holders(ops, slot)| + if op.slot == slot then 1 else 0
  {
    if op.slot == slot {
      assert Holders(ops[a := op], slot) == Holders(ops, slot) + {a};
    } else {
      assert Holders(ops[a := op], slot) == Holders(ops, slot);
    }
  }

  lemma HoldersRemove(ops: Ops, a: Addr, slot: Slot)
    requires a in ops
    ensures |Holders(ops, slot)| == |Holders(ops - {a}, slot)| + if ops[a].slot == slot then 1 else 0
  {
    if ops[a].slot == slot {
      assert Holders(ops, slot) == Holders(ops - {a}, slot) + {a};
    } else {
      assert Holders(ops - {a}, slot) == Holders(ops, slot);
    }
  }

  ghost predicate SameTag(l: Line, l': Line) { l'.valid == l.valid && l'.tag == l.tag }

  lemma TagsKept(c: Config, cache: Cache, slot: Slot, l: Line)
    requires Good(c) && UniqueTags(c, cache) && SameTag(LineIn(cache, slot), l)
    ensures UniqueTags(c, cache[slot := l])
    ensures forall a, op :: LineOf(c, cache, a, op) ==> LineOf(c, cache[slot := l], a, op)
  {
    var cache' := cache[slot := l];
    assert forall x :: SameTag(LineIn(cache, x), LineIn(cache', x));
    forall a, op | LineOf(c, cache, a, op) ensures LineOf(c, cache', a, op) {
      forall p | Absent(c, cache, p) ensures Absent(c, cache', p) {
        forall x | IsSlot(c, x) ensures !Caches(c, cache', x, p) { assert !Caches(c, cache, x, p); }
      }
    }
  }

  lemma LinesLock(c: Config, cache: Cache, ops: Ops, a: Addr, op: Op, l: Line)
    requires Good(c) && Lines(c, cache, ops) && a !in ops && LineOf(c, cache, a, op)
    requires SameTag(LineIn(cache, op.slot), l) && l.locked && l.lockCount == LineIn(cache, op.slot).lockCount + 1
    requires IsSlot(c, op.slot) && (l.dirty ==> l.valid)
    ensures Lines(c, cache[op.slot := l], ops[a := op])
  {
    var cache' := cache[op.slot := l];
    TagsKept(c, cache, op.slot, l);
    forall x | IsSlot(c, x) ensures LineShape(LineIn(cache', x), Holders(ops[a := op], x)) {
      HoldersAdd(ops, a, op, x);
      assert LineShape(LineIn(cache, x), Holders(ops, x));
    }
  }

  lemma LinesUnlock(c: Config, cache: Cache, ops: Ops, a: Addr, l: Line)
    requires Good(c) && Lines(c, cache, ops) && a in ops
    requires SameTag(LineIn(cache, ops[a].slot), l) && (l.dirty ==> l.valid)
    requires l.lockCount == LineIn(cache, ops[a].slot).lockCount - 1 && (l.locked <==> l.lockCount != 0)
    ensures Lines(c, cache[ops[a].slot := l], ops - {a})
  {
    var cache' := cache[ops[a].slot := l];
    TagsKept(c, cache, ops[a].slot, l);
    forall x | IsSlot(c, x) ensures LineShape(LineIn(cache', x), Holders(ops - {a}, x)) {
      HoldersRemove(ops, a, x);
      assert LineShape(LineIn(cache, x), Holders(ops, x));
    }
  }

  /** Timestamp and dirty bit. */
  lemma LinesTouch(c: Config, cache: Cache, ops: Ops, slot: Slot, l: Line)
    requires Good(c) && Lines(c, cache, ops) && SameTag(LineIn(cache, slot), l) && (l.dirty ==> l.valid)
    requires l.locked == LineIn(cache, slot).locked && l.lockCount == LineIn(cache, slot).lockCount
    ensures Lines(c, cache[slot := l], ops)
  {
    TagsKept(c, cache, slot, l);
    forall x | IsSlot(c, x) ensures LineShape(LineIn(cache[slot := l], x), Holders(ops, x)) {
      assert LineShape(LineIn(cache, x), Holders(ops, x));
    }
  }

  lemma LinesFlags(c: Config, cache: Cache, ops: Ops, a: Addr, op: Op)
    requires Good(c) && Lines(c, cache, ops) && a in ops && op.slot == ops[a].slot && LineOf(c, cache, a, op)
    ensures Lines(c, cache, ops[a := op])
  {
    forall x | IsSlot(c, x) ensures LineShape(LineIn(cache, x), Holders(ops[a := op], x)) {
      assert Holders(ops[a := op], x) == Holders(ops, x);
      assert LineShape(LineIn(cache, x), Holders(ops, x));
    }
  }

  lemma RefillAbsent(c: Config, cache: Cache, slot: Slot, l: Line, page: nat, p: nat)
    requires Good(c) && l.tag == TagOf(c, page) && slot.set_ == SetOf(c, page) && p != page
    requires forall x :: IsSlot(c, x) && x != slot ==> !Caches(c, cache, x, p)
    ensures Absent(c, cache[slot := l], p)
  {
    PageSplit(c, page);
    PageSplit(c, p);
    forall x | IsSlot(c, x) ensures !Caches(c, cache[slot := l], x, p) {
      if x != slot { assert !Caches(c, cache, x, p); }
    }
  }

  /** The refill replaces the tag; no other line, and no other operation, is about that page. */
  lemma LinesRefill(c: Config, cache: Cache, ops: Ops, a: Addr, op: Op, l: Line)
    requires Good(c) && Lines(c, cache, ops) && a in ops && ops[a].lineOut && op == ops[a].(lineOut := false)
    requires IsSlot(c, op.slot) && op.slot.set_ == SetOf(c, a.page)
    requires forall b :: b in ops && b != a ==> ops[b].slot != op.slot && b.page != a.page
    requires forall b :: b in ops && ops[b].victimValid ==> VictimPage(c, ops[b]) != a.page
    requires l.valid && l.tag == TagOf(c, a.page)
    requires l.locked == LineIn(cache, op.slot).locked && l.lockCount == LineIn(cache, op.slot).lockCount
    ensures Lines(c, cache[op.slot := l], ops[a := op])
  {
    hide PageOf, SetOf, TagOf, NumSets, Sound;
    var cache', ops' := cache[op.slot := l], ops[a := op];
    assert LineOf(c, cache, a, ops[a]);
    forall x | IsSlot(c, x) ensures LineShape(LineIn(cache', x), Holders(ops', x)) {
      assert Holders(ops', x) == Holders(ops, x);
      assert LineShape(LineIn(cache, x), Holders(ops, x));
    }
    forall x, y | IsSlot(c, x) && IsSlot(c, y) && x.set_ == y.set_
                  && LineIn(cache', x).valid && LineIn(cache', y).valid
                     && LineIn(cache', x).tag == LineIn(cache', y).tag
      ensures x == y
    {
      assert !Caches(c, cache, x, a.page) && !Caches(c, cache, y, a.page);
    }
    forall b | b in ops' ensures LineOf(c, cache', b, ops'[b]) {
      if b == a {
        if op.victimValid {
          VictimOnlyThere(c, cache, op);
          RefillAbsent(c, cache, op.slot, l, a.page, VictimPage(c, op));
        }
      } else {
        assert LineOf(c, cache, b, ops[b]);
        if ops[b].lineOut { RefillAbsent(c, cache, op.slot, l, a.page, b.page); }
        else if ops[b].victimValid { RefillAbsent(c, cache, op.slot, l, a.page, VictimPage(c, ops[b])); }
      }
    }
  }

  lemma VictimOnlyThere(c: Config, cache: Cache, op: Op)
    requires Good(c) && UniqueTags(c, cache) && IsSlot(c, op.slot)
    requires LineIn(cache, op.slot).valid && LineIn(cache, op.slot).tag == op.victimTag
    ensures forall x :: IsSlot(c, x) && x != op.slot ==> !Caches(c, cache, x, VictimPage(c, op))
  {
    PageJoin(c, op.victimTag, op.slot.set_);
  }

  // Set counters.

  lemma {:induction false} SumUnchanged(cache: Cache, cache': Cache, set_: nat, n: nat)
    requires forall w ::
             0 <= w < n ==> LineIn(cache', Slot(set_, w)).lockCount == LineIn(cache, Slot(set_, w)).lockCount
    ensures SumLocks(cache', set_, n) == SumLocks(cache, set_, n)
  {
    if n > 0 { SumUnchanged(cache, cache', set_, n - 1); }
  }

  lemma {:induction false} SumShift(cache: Cache, slot: Slot, l: Line, n: nat)
    ensures SumLocks(cache[slot := l], slot.set_, n)
         == SumLocks(cache, slot.set_, n) + if slot.way < n then l.lockCount - LineIn(cache, slot).lockCount else 0
  {
    if n > 0 { SumShift(cache, slot, l, n - 1); }
  }

  lemma CountedShift(c: Config, cache: Cache, counter: map<nat, int>, active: set<Addr>, slot: Slot, l: Line,
      active': set<Addr>)
    requires Good(c) && IsSlot(c, slot) && Counted(c, cache, counter, active)
    requires var n := CountIn(counter, slot.set_) + l.lockCount - LineIn(cache, slot).lockCount;
             n <= c.setSize && (active' == {} || (active' == active && n <= CountIn(counter, slot.set_)))
    ensures var n := CountIn(counter, slot.set_) + l.lockCount - LineIn(cache, slot).lockCount;
            Counted(c, cache[slot := l], counter[slot.set_ := n], active')
  {
    var n := CountIn(counter, slot.set_) + l.lockCount - LineIn(cache, slot).lockCount;
    var cache', counter' := cache[slot := l], counter[slot.set_ := n];
    forall i: nat | i < NumSets(c) ensures SetCounted(c, cache', counter', i) {
      assert SetCounted(c, cache, counter, i);
      if i == slot.set_ { SumShift(cache, slot, l, c.setSize); } else { SumUnchanged(cache, cache', i, c.setSize); }
    }
  }

  lemma CountedTouch(c: Config, cache: Cache, counter: map<nat, int>, active: set<Addr>, slot: Slot, l: Line)
    requires Good(c) && Counted(c, cache, counter, active) && l.lockCount == LineIn(cache, slot).lockCount
    ensures Counted(c, cache[slot := l], counter, active)
  {
    var cache' := cache[slot := l];
    forall i: nat | i < NumSets(c) ensures SetCounted(c, cache', counter, i) {
      assert SetCounted(c, cache, counter, i);
      SumUnchanged(cache, cache', i, c.setSize);
    }
  }

  // Pending tables.

  lemma DramAddHit(c: Config, ops: Ops, pending: map<DAddr, Pending>, wait: map<Slot, set<nat>>, a: Addr, op: Op,
      p: Pending)
    requires Good(c) && DramTable(c, ops, pending, wait) && a !in ops && !op.miss && !op.victimOut
    requires DAddr(op.slot, a.off) !in pending && op.slot !in wait
    requires p.op == CacheReadOp && p.flash == a && PendingOf(op, p) && !p.callbackSent
    ensures DramTable(c, ops[a := op], pending[DAddr(op.slot, a.off) := p], wait)
  {
    var pending', ops' := pending[DAddr(op.slot, a.off) := p], ops[a := op];
    forall k | k in pending' ensures DramEntry(ops', wait, k, pending'[k]) {
      if k in pending { assert DramEntry(ops, wait, k, pending[k]); }
    }
    forall b | b in ops' ensures Filed(pending', b, ops'[b]) { if b != a { assert Filed(pending, b, ops[b]); } }
  }

  lemma DramEndHit(c: Config, ops: Ops, pending: map<DAddr, Pending>, wait: map<Slot, set<nat>>, key: DAddr)
    requires Good(c) && DramTable(c, ops, pending, wait) && key in pending && pending[key].op == CacheReadOp
    requires var a := pending[key].flash; a in ops && !ops[a].victimOut
    ensures DramTable(c, ops - {pending[key].flash}, pending - {key}, wait)
  {
    var a := pending[key].flash;
    var pending', ops' := pending - {key}, ops - {a};
    assert DramEntry(ops, wait, key, pending[key]) && Filed(pending, a, ops[a]);
    forall k | k in pending'
      ensures DramEntry(ops', wait, k, pending'[k])
    {
      assert DramEntry(ops, wait, k, pending[k]);
    }
    forall b | b in ops' ensures Filed(pending', b, ops'[b]) { assert Filed(pending, b, ops[b]); }
  }

  /** A miss files nothing in the DRAM table at first ... */
  lemma DramAddMiss(c: Config, ops: Ops, pending: map<DAddr, Pending>, wait: map<Slot, set<nat>>, a: Addr, op: Op)
    requires Good(c) && DramTable(c, ops, pending, wait) && a !in ops && op.miss && !op.victimOut
    ensures DramTable(c, ops[a := op], pending, wait)
  {
    var ops' := ops[a := op];
    forall k | k in pending ensures DramEntry(ops', wait, k, pending[k]) { assert DramEntry(ops, wait, k, pending[k]); }
    forall b | b in ops' ensures Filed(pending, b, ops'[b]) { if b != a { assert Filed(pending, b, ops[b]); } }
  }

  lemma DramSlotFree(c: Config, ops: Ops, pending: map<DAddr, Pending>, wait: map<Slot, set<nat>>, slot: Slot)
    requires Good(c) && DramTable(c, ops, pending, wait) && forall b :: b in ops ==> ops[b].slot != slot
    ensures slot !in wait && forall k :: k in pending ==> k.slot != slot
  {
    forall k | k in pending ensures k.slot != slot { assert DramEntry(ops, wait, k, pending[k]); }
  }

  /** ... and then its victim read, if the victim is dirty. */
  lemma DramAddVictim(c: Config, ops: Ops, pending: map<DAddr, Pending>, wait: map<Slot, set<nat>>, a: Addr, op: Op,
      p: Pending)
    requires Good(c) && DramTable(c, ops, pending, wait) && a !in ops && op.miss && op.victimOut
    requires forall b :: b in ops ==> ops[b].slot != op.slot
    requires p.op == VictimReadOp && p.flash == a && PendingOf(op, p)
    ensures DramTable(c, ops[a := op], pending[DAddr(op.slot, 0) := p], wait[op.slot := UpTo(Bursts(c))])
  {
    SomeUnits(c);
    DramSlotFree(c, ops, pending, wait, op.slot);
    var pending', wait', ops' := pending[DAddr(op.slot, 0) := p], wait[op.slot := UpTo(Bursts(c))], ops[a := op];
    assert 0 in UpTo(Bursts(c));
    forall k | k in pending' ensures DramEntry(ops', wait', k, pending'[k]) {
      if k in pending { assert DramEntry(ops, wait, k, pending[k]); }
    }
    forall b | b in ops' ensures Filed(pending', b, ops'[b]) { if b != a { assert Filed(pending, b, ops[b]); } }
  }

  lemma DramWaitLess(c: Config, ops: Ops, pending: map<DAddr, Pending>, wait: map<Slot, set<nat>>, slot: Slot,
      less: set<nat>)
    requires Good(c) && DramTable(c, ops, pending, wait) && slot in wait && less != {} && less <= wait[slot]
    ensures DramTable(c, ops, pending, wait[slot := less])
  {
    forall k | k in pending ensures DramEntry(ops, wait[slot := less], k, pending[k]) {
      assert DramEntry(ops, wait, k, pending[k]);
    }
    assert Waiting(c, pending, slot, wait[slot]);
  }

  lemma DramVictimDone(c: Config, ops: Ops, pending: map<DAddr, Pending>, wait: map<Slot, set<nat>>, slot: Slot)
    requires Good(c) && DramTable(c, ops, pending, wait) && DAddr(slot, 0) in pending
    requires var a := pending[DAddr(slot, 0)].flash;
             a in ops && ops[a].miss && forall b :: b in ops && ops[b].slot == slot ==> b == a
    ensures var a := pending[DAddr(slot, 0)].flash;
            DramTable(c, ops[a := ops[a].(victimOut := false)], pending - {DAddr(slot, 0)}, wait - {slot})
  {
    var key := DAddr(slot, 0);
    var a := pending[key].flash;
    var pending', wait', ops' := pending - {key}, wait - {slot}, ops[a := ops[a].(victimOut := false)];
    assert DramEntry(ops, wait, key, pending[key]);
    forall k | k in pending' ensures DramEntry(ops', wait', k, pending'[k]) {
      assert DramEntry(ops, wait, k, pending[k]);
    }
    forall w | w in wait' ensures Waiting(c, pending', w, wait'[w]) { assert Waiting(c, pending, w, wait[w]); }
    forall b | b in ops' ensures Filed(pending', b, ops'[b]) { assert Filed(pending, b, ops[b]); }
  }

  /** Changes of a miss that do not concern its victim read. */
  lemma DramFlags(c: Config, ops: Ops, pending: map<DAddr, Pending>, wait: map<Slot, set<nat>>, a: Addr, op: Op)
    requires Good(c) && DramTable(c, ops, pending, wait) && a in ops && ops[a].miss
    requires op == ops[a].(lineOut := op.lineOut, sent := op.sent)
    ensures DramTable(c, ops[a := op], pending, wait)
  {
    var ops' := ops[a := op];
    forall k | k in pending ensures DramEntry(ops', wait, k, pending[k]) { assert DramEntry(ops, wait, k, pending[k]); }
    forall b | b in ops' ensures Filed(pending, b, ops'[b]) { assert Filed(pending, b, ops[b]); }
  }

  lemma DramDrop(c: Config, ops: Ops, pending: map<DAddr, Pending>, wait: map<Slot, set<nat>>, a: Addr)
    requires Good(c) && DramTable(c, ops, pending, wait) && a in ops && ops[a].miss && !ops[a].victimOut
    ensures DramTable(c, ops - {a}, pending, wait)
  {
    var ops' := ops - {a};
    forall k | k in pending ensures DramEntry(ops', wait, k, pending[k]) { assert DramEntry(ops, wait, k, pending[k]); }
    forall b | b in ops' ensures Filed(pending, b, ops'[b]) { assert Filed(pending, b, ops[b]); }
  }

  lemma FlashAddMiss(c: Config, ops: Ops, pending: map<nat, Pending>, wait: map<nat, set<nat>>, a: Addr, op: Op,
      p: Pending)
    requires Good(c) && FlashTable(c, ops, pending, wait) && a !in ops && op.lineOut && !op.sent
    requires forall b :: b in ops && ops[b].lineOut ==> b.page != a.page
    requires p.op == LineReadOp && p.flash == a && PendingOf(op, p) && !p.callbackSent
    ensures FlashTable(c, ops[a := op], pending[a.page := p], wait[a.page := UpTo(Chunks(c))])
  {
    SomeUnits(c);
    var pending', wait', ops' := pending[a.page := p], wait[a.page := UpTo(Chunks(c))], ops[a := op];
    assert 0 in UpTo(Chunks(c));
    forall q | q in pending' ensures FlashEntry(c, ops', q, pending'[q], wait'[q]) {
      if q != a.page { assert FlashEntry(c, ops, q, pending[q], wait[q]); }
    }
  }

  lemma FlashWaitLess(c: Config, ops: Ops, pending: map<nat, Pending>, wait: map<nat, set<nat>>, page: nat,
      less: set<nat>)
    requires Good(c) && FlashTable(c, ops, pending, wait) && page in wait && less != {} && less <= wait[page]
    ensures FlashTable(c, ops, pending, wait[page := less])
  {
    forall q | q in pending ensures FlashEntry(c, ops, q, pending[q], wait[page := less][q]) {
      assert FlashEntry(c, ops, q, pending[q], wait[q]);
    }
  }

  lemma FlashLineDone(c: Config, ops: Ops, pending: map<nat, Pending>, wait: map<nat, set<nat>>, page: nat)
    requires Good(c) && FlashTable(c, ops, pending, wait) && page in pending && pending[page].flash in ops
    ensures var a := pending[page].flash;
            FlashTable(c, ops[a := ops[a].(lineOut := false)], pending - {page}, wait - {page})
  {
    var a := pending[page].flash;
    var pending', wait', ops' := pending - {page}, wait - {page}, ops[a := ops[a].(lineOut := false)];
    assert FlashEntry(c, ops, page, pending[page], wait[page]);
    forall q | q in pending' ensures FlashEntry(c, ops', q, pending'[q], wait'[q]) {
      assert FlashEntry(c, ops, q, pending[q], wait[q]);
    }
  }

  /** Changes of an operation that do not concern its line read. */
  lemma FlashFlags(c: Config, ops: Ops, pending: map<nat, Pending>, wait: map<nat, set<nat>>, a: Addr, op: Op)
    requires Good(c) && FlashTable(c, ops, pending, wait)
    requires if a in ops then op == ops[a].(victimOut := op.victimOut) else !op.lineOut
    ensures FlashTable(c, ops[a := op], pending, wait)
  {
    forall q | q in pending ensures FlashEntry(c, ops[a := op], q, pending[q], wait[q]) {
      assert FlashEntry(c, ops, q, pending[q], wait[q]);
    }
  }

  lemma FlashDrop(c: Config, ops: Ops, pending: map<nat, Pending>, wait: map<nat, set<nat>>, a: Addr)
    requires Good(c) && FlashTable(c, ops, pending, wait) && a in ops && !ops[a].lineOut
    ensures FlashTable(c, ops - {a}, pending, wait)
  {
    forall q | q in pending ensures FlashEntry(c, ops - {a}, q, pending[q], wait[q]) {
      assert FlashEntry(c, ops, q, pending[q], wait[q]);
    }
  }

  lemma FlashSent(c: Config, ops: Ops, pending: map<nat, Pending>, wait: map<nat, set<nat>>, page: nat)
    requires Good(c) && FlashTable(c, ops, pending, wait) && page in pending && pending[page].flash in ops
    ensures var p := pending[page];
            FlashTable(c, ops[p.flash := ops[p.flash].(sent := true)], pending[page := p.(callbackSent := true)], wait)
  {
    var p := pending[page];
    var pending', ops' := pending[page := p.(callbackSent := true)], ops[p.flash := ops[p.flash].(sent := true)];
    assert FlashEntry(c, ops, page, p, wait[page]);
    forall q | q in pending' ensures FlashEntry(c, ops', q, pending'[q], wait[q]) {
      assert FlashEntry(c, ops, q, pending[q], wait[q]);
    }
  }
}
