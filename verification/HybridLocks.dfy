/**
 The locking discipline of the cache controller.  Four tables interlock: pendingFlash,
 pendingPages, the lock count of each line and the counter of each set.  `Locked` is
 the invariant they keep, built from predicates that each speak of the tables they need.
 */
module HybridLocks {
  import opened Basics
  import opened HybridGeometry
  import opened InOrderMemory
  import opened HybridController

  type Ops = map<Addr, Op>
  type Cache = map<Slot, Line>

  ghost predicate IsSlot(c: Config, slot: Slot)
    requires Good(c)
  {
    slot.set_ < NumSets(c) && slot.way < c.setSize
  }

  ghost function VictimPage(c: Config, op: Op): nat
    requires Good(c)
  {
    PageOf(c, op.victimTag, op.slot.set_)
  }

  ghost function Outstanding(op: Op): int {
    (if op.lineOut then 1 else 0) + (if op.victimOut then 1 else 0)
  }

  ghost function Holders(ops: Ops, slot: Slot): set<Addr> {
    set a | a in ops && ops[a].slot == slot
  }

  ghost function SumLocks(cache: Cache, set_: nat, n: nat): int {
    if n == 0 then 0 else SumLocks(cache, set_, n - 1) + LineIn(cache, Slot(set_, n - 1)).lockCount
  }

  /** What one outstanding operation looks like. */
  ghost predicate OpShape(c: Config, a: Addr, op: Op)
    requires Good(c)
  {
    && IsSlot(c, op.slot) && op.slot.set_ == SetOf(c, a.page)
    && Align(c, op.txn.addr) == a
    && (op.miss <==> op.lineOut || op.victimOut)
    && (op.victimOut ==> op.victimValid)
    && (!op.miss ==> op.txn.kind == DataRead && !op.sent && !op.victimValid)
  }

  ghost predicate Exclusive(ops: Ops, a: Addr)
    requires a in ops
  {
    forall b :: b in ops && ops[a].slot == ops[b].slot ==> a == b
  }

  ghost predicate Shaped(c: Config, ops: Ops)
    requires Good(c)
  {
    && (forall a :: a in ops ==> OpShape(c, a, ops[a]))
    && (forall a :: a in ops && ops[a].miss ==> Exclusive(ops, a))
  }

  /** A pending page is owned by one miss: it is the page being fetched, or the valid victim. */
  ghost predicate Owned(c: Config, ops: Ops, a: Addr, page: nat, count: int)
    requires Good(c)
  {
    && a in ops && ops[a].miss
    && if page == a.page then count == Outstanding(ops[a])
       else ops[a].victimValid && page == VictimPage(c, ops[a]) && count == 0
  }

  ghost predicate Owns(c: Config, owner: map<nat, Addr>, a: Addr, op: Op)
    requires Good(c)
  {
    if op.miss then
      && a.page in owner && owner[a.page] == a
      && (op.victimValid ==>
            var v := VictimPage(c, op); v in owner && owner[v] == a && v != a.page)
    else a.page !in owner
  }

  ghost predicate Paged(c: Config, ops: Ops, owner: map<nat, Addr>, pages: map<nat, int>)
    requires Good(c)
  {
    && owner.Keys == pages.Keys
    && (forall p :: p in owner ==> Owned(c, ops, owner[p], p, pages[p]))
    && (forall a :: a in ops ==> Owns(c, owner, a, ops[a]))
  }

  /** `active` is the address being looked up, if any. */
  ghost predicate Held(c: Config, k: Core, active: set<Addr>)
    requires Good(c)
  {
    && Shaped(c, k.ops)
    && Paged(c, k.ops, k.owner, k.pendingPages)
    && k.pendingFlash == k.ops.Keys + active
    && active !! k.ops.Keys
    && (forall a :: a in active ==> a.page !in k.pendingPages)
  }

  ghost predicate Caches(c: Config, cache: Cache, slot: Slot, page: nat)
    requires Good(c)
  {
    slot.set_ == SetOf(c, page) && LineIn(cache, slot).valid && LineIn(cache, slot).tag == TagOf(c, page)
  }

  ghost predicate Absent(c: Config, cache: Cache, page: nat)
    requires Good(c)
  {
    forall slot :: IsSlot(c, slot) ==> !Caches(c, cache, slot, page)
  }

  /** The line an operation works on: a miss keeps the victim's tag until the refill arrives. */
  ghost predicate LineOf(c: Config, cache: Cache, a: Addr, op: Op)
    requires Good(c)
  {
    var l := LineIn(cache, op.slot);
    if op.lineOut then l.valid == op.victimValid && l.tag == op.victimTag && Absent(c, cache, a.page)
    else Caches(c, cache, op.slot, a.page) && (op.victimValid ==> Absent(c, cache, VictimPage(c, op)))
  }

  ghost predicate LineShape(l: Line, holders: set<Addr>) {
    && l.lockCount == |holders|
    && (l.locked <==> l.lockCount > 0)
    && (l.dirty ==> l.valid)
  }

  ghost predicate Lines(c: Config, cache: Cache, ops: Ops)
    requires Good(c)
  {
    && (forall slot :: IsSlot(c, slot) ==> LineShape(LineIn(cache, slot), Holders(ops, slot)))
    && UniqueTags(c, cache)
    && (forall a :: a in ops ==> LineOf(c, cache, a, ops[a]))
  }

  ghost predicate UniqueTags(c: Config, cache: Cache)
    requires Good(c)
  {
    forall x, y :: IsSlot(c, x) && IsSlot(c, y) && x.set_ == y.set_
                   && LineIn(cache, x).valid && LineIn(cache, y).valid && LineIn(cache, x).tag == LineIn(cache, y).tag
                   ==> x == y
  }

  ghost predicate SetCounted(c: Config, cache: Cache, counter: map<nat, int>, i: nat) {
    CountIn(counter, i) == SumLocks(cache, i, c.setSize) && CountIn(counter, i) <= c.setSize
  }

  ghost predicate Counted(c: Config, cache: Cache, counter: map<nat, int>, active: set<Addr>)
    requires Good(c)
  {
    && (forall i: nat :: i < NumSets(c) ==> SetCounted(c, cache, counter, i))
    && (forall a :: a in active ==> CountIn(counter, SetOf(c, a.page)) < c.setSize)
  }

  ghost predicate PendingOf(op: Op, p: Pending) {
    p.txn == op.txn && p.slot == op.slot && p.victimTag == op.victimTag && p.victimValid == op.victimValid
  }

  ghost predicate FlashEntry(c: Config, ops: Ops, page: nat, p: Pending, wait: set<nat>)
    requires Good(c)
  {
    && p.op == LineReadOp && p.flash.page == page
    && p.flash in ops && ops[p.flash].lineOut
    && PendingOf(ops[p.flash], p) && p.callbackSent == ops[p.flash].sent
    && wait != {} && wait <= UpTo(Chunks(c))
  }

  /** Exactly the misses whose line is still to come are filed, under their page. */
  ghost predicate FlashTable(c: Config, ops: Ops, pending: map<nat, Pending>, wait: map<nat, set<nat>>)
    requires Good(c)
  {
    && pending.Keys == wait.Keys
    && (forall p :: p in pending ==> FlashEntry(c, ops, p, pending[p], wait[p]))
    && (forall a :: a in ops && ops[a].lineOut ==> a.page in pending && pending[a.page].flash == a)
  }

  ghost predicate DramEntry(ops: Ops, wait: map<Slot, set<nat>>, key: DAddr, p: Pending) {
    && p.flash in ops && PendingOf(ops[p.flash], p) && p.slot == key.slot
    && match p.op
       case VictimReadOp => key.off == 0 && ops[p.flash].victimOut && p.slot in wait
       case CacheReadOp => key.off == p.flash.off && !ops[p.flash].miss && !p.callbackSent && p.slot !in wait
       case LineReadOp => false
  }

  ghost predicate Waiting(c: Config, pending: map<DAddr, Pending>, slot: Slot, wait: set<nat>)
    requires Good(c)
  {
    && wait != {} && wait <= UpTo(Bursts(c))
    && DAddr(slot, 0) in pending && pending[DAddr(slot, 0)].op == VictimReadOp
  }

  ghost predicate Filed(pending: map<DAddr, Pending>, a: Addr, op: Op) {
    && (op.victimOut ==> DAddr(op.slot, 0) in pending && pending[DAddr(op.slot, 0)].flash == a
                         && pending[DAddr(op.slot, 0)].op == VictimReadOp)
    && (!op.miss ==> DAddr(op.slot, a.off) in pending && pending[DAddr(op.slot, a.off)].flash == a)
  }

  /** Exactly the read hits and the misses whose victim is still to come are filed. */
  ghost predicate DramTable(c: Config, ops: Ops, pending: map<DAddr, Pending>, wait: map<Slot, set<nat>>)
    requires Good(c)
  {
    && (forall k :: k in pending ==> DramEntry(ops, wait, k, pending[k]))
    && (forall w :: w in wait ==> Waiting(c, pending, w, wait[w]))
    && (forall a :: a in ops ==> Filed(pending, a, ops[a]))
  }

  // The invariant.

  ghost predicate Tabled(c: Config, ops: Ops, t: Tables)
    requires Good(c)
  {
    && FlashTable(c, ops, t.flashPending, t.flashWait)
    && DramTable(c, ops, t.dramPending, t.dramWait)
    && t.dramGot.Keys == t.dramWait.Keys && t.flashGot.Keys == t.flashWait.Keys
  }

  ghost predicate Locked(c: Config, k: Core, t: Tables, active: set<Addr>)
    requires Good(c)
  {
    && Held(c, k, active)
    && Lines(c, k.cache, k.ops)
    && Counted(c, k.cache, k.setCounter, active)
    && Tabled(c, k.ops, t)
  }

  ghost function ActiveAddr(c: Config, active: Option<Txn>): set<Addr>
    requires Good(c)
  {
    if active.Some? then {Align(c, active.value.addr)} else {}
  }

  /** A cache table no transaction holds: empty, prefilled or restored. */
  ghost predicate Unheld(c: Config, cache: Cache)
    requires Good(c)
  {
    && (forall slot :: IsSlot(c, slot) ==>
          var l := LineIn(cache, slot); l.lockCount == 0 && !l.locked && (l.dirty ==> l.valid))
    && UniqueTags(c, cache)
  }

  // Victim selection.

  /** The chosen way is unlocked, has the least timestamp of the unlocked ways, and is the first such. */
  lemma {:induction false} VictimIsLeastRecent(c: Config, cache: Cache, set_: nat, n: nat)
    requires n <= c.setSize
    ensures var v := VictimWay(c, cache, set_, n);
            && (v == c.setSize <==> forall w :: 0 <= w < n ==> LineIn(cache, Slot(set_, w)).locked)
            && (v != c.setSize ==>
                  && v < n && !LineIn(cache, Slot(set_, v)).locked
                  && (forall w :: 0 <= w < n && !LineIn(cache, Slot(set_, w)).locked ==>
                        LineIn(cache, Slot(set_, v)).ts <= LineIn(cache, Slot(set_, w)).ts)
                  && (forall w :: 0 <= w < v && !LineIn(cache, Slot(set_, w)).locked ==>
                        LineIn(cache, Slot(set_, v)).ts < LineIn(cache, Slot(set_, w)).ts))
  {
    if n > 0 { VictimIsLeastRecent(c, cache, set_, n - 1); }
  }

  lemma {:induction false} SumBound(cache: Cache, set_: nat, n: nat)
    requires forall w :: 0 <= w < n ==> LineIn(cache, Slot(set_, w)).lockCount >= 1
    ensures SumLocks(cache, set_, n) >= n
  {
    if n > 0 { SumBound(cache, set_, n - 1); }
  }

  /** Pigeonhole: while the set's counter is below its size, an unlocked way exists and is chosen. */
  lemma VictimExists(c: Config, k: Core, set_: nat, active: set<Addr>)
    requires Good(c) && Lines(c, k.cache, k.ops) && Counted(c, k.cache, k.setCounter, active)
    requires set_ < NumSets(c) && CountIn(k.setCounter, set_) < c.setSize
    ensures var slot := MissSlot(c, k.cache, set_);
            && IsSlot(c, slot) && !LineIn(k.cache, slot).locked
            && slot.way == VictimWay(c, k.cache, set_, c.setSize)
            && forall w :: 0 <= w < c.setSize && !LineIn(k.cache, Slot(set_, w)).locked ==>
                 LineIn(k.cache, slot).ts <= LineIn(k.cache, Slot(set_, w)).ts
  {
    VictimIsLeastRecent(c, k.cache, set_, c.setSize);
    assert SetCounted(c, k.cache, k.setCounter, set_);
    if VictimWay(c, k.cache, set_, c.setSize) == c.setSize {
      forall w | 0 <= w < c.setSize ensures LineIn(k.cache, Slot(set_, w)).lockCount >= 1 {
        assert IsSlot(c, Slot(set_, w));
      }
      SumBound(k.cache, set_, c.setSize);
    }
  }
}
