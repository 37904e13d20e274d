/**
 The state of HybridSim's cache controller and what each of its operations does to it.
 An operation that the source would end with assert() or abort() yields Abort.

 Two fields are auxiliary: `ops` lists the transactions that have been looked up and still hold
 their locks, and `owner` names, for each pending page, the miss that locked it.  No operation
 reads them.
 */
module HybridController {
  import opened Basics
  import opened HybridGeometry
  import opened InOrderMemory

  datatype Outcome<+T> = Fine(value: T) | Abort {
    predicate IsFailure() { Abort? }
    function PropagateFailure<U>(): Outcome<U> requires Abort? { Abort }
    function Extract(): T requires Fine? { value }
  }

  function Demand(cond: bool): Outcome<()> { if cond then Fine(()) else Abort }

  datatype Kind = DataRead | DataWrite | Prefetch

  /** `id` numbers the accepted requests; prefetches carry no id of their own. */
  datatype Txn = Txn(kind: Kind, addr: nat, id: nat, data: int)

  datatype Line = Line(valid: bool, dirty: bool, locked: bool, lockCount: int, tag: nat, ts: nat)

  const EmptyLine := Line(false, false, false, 0, 0, 0)

  datatype PendingOp = VictimReadOp | LineReadOp | CacheReadOp

  datatype Pending = Pending(op: PendingOp, txn: Txn, flash: Addr, slot: Slot,
                             victimTag: nat, victimValid: bool, callbackSent: bool)

  datatype Op = Op(txn: Txn, slot: Slot, miss: bool, victimTag: nat, victimValid: bool,
                   lineOut: bool, victimOut: bool, sent: bool)

  datatype Completion = Completion(isWrite: bool, id: nat, addr: nat, value: int)

  /** The tag store and the lock tables. */
  datatype Core = Core(
    cache: map<Slot, Line>,
    pendingFlash: set<Addr>,
    pendingPages: map<nat, int>,
    setCounter: map<nat, int>,
    ops: map<Addr, Op>,
    owner: map<nat, Addr>)

  /** Reads sent to the memories, by address; the data received so far is kept beside the wait sets. */
  datatype Tables = Tables(
    dramPending: map<DAddr, Pending>,
    flashPending: map<nat, Pending>,
    dramWait: map<Slot, set<nat>>,
    flashWait: map<nat, set<nat>>,
    dramGot: map<Slot, nat -> int>,
    flashGot: map<nat, nat -> int>)

  /** The transaction queue and the state of its scan. */
  datatype Front = Front(
    queue: seq<Txn>,
    active: Option<Txn>,
    delay: nat,
    checkQueue: bool,
    pendingCount: int,
    now: nat)

  /** What the controller sends out: requests to the memories, callbacks, and the access log. */
  datatype Out = Out(
    dramQueue: seq<Req<DAddr, int>>,
    flashQueue: seq<Req<FAddr, nat -> int>>,
    done: seq<Completion>,
    logQueue: seq<nat>,
    logMap: set<nat>)

  datatype Ctl = Ctl(core: Core, tables: Tables, front: Front, out: Out)

  // MMIO hole: 3.5 GB to 4 GB is dropped, everything above moves down by 0.5 GB.

  const HALFGB: nat := 536870912
  const THREEPOINTFIVEGB: nat := 3758096384
  const FOURGB: nat := 4294967296

  predicate InMmioHole(addr: nat) { THREEPOINTFIVEGB <= addr < FOURGB }

  function Remap(addr: nat): nat { if addr >= FOURGB then addr - HALFGB else addr }

  function CallbackAddr(orig: nat): nat { if orig >= THREEPOINTFIVEGB then orig + HALFGB else orig }

  // Logger.

  function LogProcess(o: Out, addr: nat): Outcome<Out> {
    var i := IndexOf(o.logQueue, addr);
    if i == |o.logQueue| || addr in o.logMap then Abort
    else Fine(o.(logQueue := Without(o.logQueue, i), logMap := o.logMap + {addr}))
  }

  function LogStop(o: Out, addr: nat): Outcome<Out> {
    if addr in o.logMap then Fine(o.(logMap := o.logMap - {addr})) else Abort
  }

  /** ReadDoneCallback and WriteDoneCallback. */
  function Complete(o: Out, isWrite: bool, txn: Txn, value: int): Outcome<Out> {
    LogStop(o.(done := o.done + [Completion(isWrite, txn.id, CallbackAddr(txn.addr), value)]), txn.addr)
  }

  // Contention.

  function CountIn(counter: map<nat, int>, i: nat): int {
    if i in counter then counter[i] else 0
  }

  function LineIn(cache: map<Slot, Line>, slot: Slot): Line {
    if slot in cache then cache[slot] else EmptyLine
  }

  predicate IsUnlocked(c: Config, k: Core, a: Addr)
    requires Good(c)
  {
    && CountIn(k.setCounter, SetOf(c, a.page)) != c.setSize
    && a.page !in k.pendingPages
    && a !in k.pendingFlash
  }

  function CacheLineLock(k: Core, slot: Slot): Core {
    var l := LineIn(k.cache, slot);
    k.(cache := k.cache[slot := l.(locked := true, lockCount := l.lockCount + 1)],
       setCounter := k.setCounter[slot.set_ := CountIn(k.setCounter, slot.set_) + 1])
  }

  /** The counts are unsigned in the source; taking one below zero is a failure here. */
  function CacheLineUnlock(k: Core, slot: Slot): Outcome<Core> {
    var l := LineIn(k.cache, slot);
    var n := l.lockCount - 1;
    var _ :- Demand(n >= 0 && CountIn(k.setCounter, slot.set_) >= 1);
    Fine(k.(cache := k.cache[slot := l.(lockCount := n, locked := l.locked && n != 0)],
            setCounter := k.setCounter[slot.set_ := CountIn(k.setCounter, slot.set_) - 1]))
  }

  function PageCount(k: Core, page: nat): int {
    if page in k.pendingPages then k.pendingPages[page] else 0
  }

  function Increment(k: Core, page: nat): Core {
    k.(pendingPages := k.pendingPages[page := PageCount(k, page) + 1])
  }

  function Decrement(k: Core, page: nat): Outcome<Core> {
    var _ :- Demand(PageCount(k, page) >= 1);
    Fine(k.(pendingPages := k.pendingPages[page := PageCount(k, page) - 1]))
  }

  /** A hit holds no page; a miss may let go once none of its reads is outstanding. */
  predicate MayRelease(k: Core, a: Addr) { a.page in k.pendingPages ==> k.pendingPages[a.page] == 0 }

  function Release(k: Core, a: Addr, victimValid: bool, victimPage: nat, slot: Slot): Outcome<Core> {
    var _ :- Demand(a in k.pendingFlash);
    var k1 := k.(pendingFlash := k.pendingFlash - {a}, ops := k.ops - {a});
    if a.page !in k.pendingPages then
      var _ :- Demand(!victimValid);
      CacheLineUnlock(k1, slot)
    else
      var gone := {a.page} + if victimValid then {victimPage} else {};
      var _ :- Demand(victimValid ==> victimPage in k.pendingPages && victimPage != a.page);
      CacheLineUnlock(k1.(pendingPages := k.pendingPages - gone, owner := k.owner - gone), slot)
  }

  function ContentionUnlock(s: Ctl, a: Addr, victimValid: bool, victimPage: nat, slot: Slot): Outcome<Ctl> {
    if MayRelease(s.core, a) then
      var k :- Release(s.core, a, victimValid, victimPage, slot);
      Fine(s.(core := k, front := s.front.(checkQueue := true, pendingCount := s.front.pendingCount - 1)))
    else Fine(s)
  }

  // Hits.

  function SetLine(k: Core, slot: Slot, l: Line): Core { k.(cache := k.cache[slot := l]) }

  function CacheRead(s: Ctl, txn: Txn, a: Addr, slot: Slot): Outcome<Ctl> {
    var key := DAddr(slot, a.off);
    var _ :- Demand(key !in s.tables.dramPending);
    Fine(s.(core := SetLine(s.core, slot, LineIn(s.core.cache, slot).(ts := s.front.now)),
            out := s.out.(dramQueue := s.out.dramQueue + [Rd(key)]),
            tables := s.tables.(dramPending :=
              s.tables.dramPending[key := Pending(CacheReadOp, txn, a, slot, 0, false, false)])))
  }

  function CacheReadFinish(c: Config, s: Ctl, p: Pending, value: int): Outcome<Ctl>
    requires Good(c)
  {
    var o :- if p.callbackSent then Fine(s.out) else Complete(s.out, false, p.txn, value);
    ContentionUnlock(s.(out := o), p.flash, p.victimValid, PageOf(c, p.victimTag, p.slot.set_), p.slot)
  }

  function CacheWriteFinish(c: Config, s: Ctl, p: Pending): Outcome<Ctl>
    requires Good(c)
  {
    var l := LineIn(s.core.cache, p.slot).(dirty := true, valid := true, ts := s.front.now);
    var o :- if p.callbackSent then Fine(s.out) else Complete(s.out, true, p.txn, p.txn.data);
    ContentionUnlock(s.(core := SetLine(s.core, p.slot, l), out := o),
                     p.flash, p.victimValid, PageOf(c, p.victimTag, p.slot.set_), p.slot)
  }

  function CacheWrite(c: Config, s: Ctl, txn: Txn, a: Addr, slot: Slot): Outcome<Ctl>
    requires Good(c)
  {
    CacheWriteFinish(c, s.(out := s.out.(dramQueue := s.out.dramQueue + [Wr(DAddr(slot, a.off), txn.data)])),
                     Pending(CacheReadOp, txn, a, slot, 0, false, false))
  }

  function HitOp(t: Txn, slot: Slot): Op { Op(t, slot, false, 0, false, false, false, false) }

  function ProcessHit(c: Config, s: Ctl, t: Txn, a: Addr, slot: Slot): Outcome<Ctl>
    requires Good(c)
  {
    var s1 := s.(core := CacheLineLock(s.core, slot).(ops := s.core.ops[a := HitOp(t, slot)]));
    match t.kind
    case DataRead => CacheRead(s1, t, a, slot)
    case DataWrite => CacheWrite(c, s1, t, a, slot)
    case Prefetch => ContentionUnlock(s1, a, false, 0, slot)
  }

  // Misses.

  const NOTHING: nat -> int := _ => 0

  function UpTo(n: nat): (r: set<nat>)
    ensures forall i: nat :: i in r <==> i < n
  {
    if n == 0 then {} else UpTo(n - 1) + {n - 1}
  }

  function PageReads(slot: Slot, n: nat): seq<Req<DAddr, int>> {
    seq(n, (i: nat) => Rd(DAddr(slot, i)))
  }

  function PageWrites(slot: Slot, n: nat, content: nat -> int): seq<Req<DAddr, int>> {
    seq(n, (i: nat) => Wr(DAddr(slot, i), content(i)))
  }

  function ChunkReads(page: nat, n: nat): seq<Req<FAddr, nat -> int>> {
    seq(n, (i: nat) => Rd(FAddr(page, i)))
  }

  function ChunkWrites(page: nat, n: nat, content: nat -> int): seq<Req<FAddr, nat -> int>> {
    seq(n, (i: nat) => Wr(FAddr(page, i), content))
  }

  function LineRead(c: Config, s: Ctl, p: Pending): Ctl
    requires Good(c)
  {
    var page := p.flash.page;
    s.(core := Increment(s.core, page),
       tables := s.tables.(flashWait := s.tables.flashWait[page := UpTo(Chunks(c))],
                           flashGot := s.tables.flashGot[page := NOTHING],
                           flashPending := s.tables.flashPending[page := p.(op := LineReadOp)]),
       out := s.out.(flashQueue := s.out.flashQueue + ChunkReads(page, Chunks(c))))
  }

  function VictimRead(c: Config, s: Ctl, p: Pending): Outcome<Ctl>
    requires Good(c)
  {
    var key := DAddr(p.slot, 0);
    var _ :- Demand(key !in s.tables.dramPending);
    Fine(s.(core := Increment(s.core, p.flash.page),
            tables := s.tables.(dramWait := s.tables.dramWait[p.slot := UpTo(Bursts(c))],
                                dramGot := s.tables.dramGot[p.slot := NOTHING],
                                dramPending := s.tables.dramPending[key := p.(op := VictimReadOp)]),
            out := s.out.(dramQueue := s.out.dramQueue + PageReads(p.slot, Bursts(c)))))
  }

  /** The first way holding the tag, or setSize. */
  function HitWay(c: Config, cache: map<Slot, Line>, set_: nat, tag: nat, from: nat): (w: nat)
    requires from <= c.setSize
    ensures from <= w <= c.setSize
    ensures w < c.setSize ==> LineIn(cache, Slot(set_, w)).valid && LineIn(cache, Slot(set_, w)).tag == tag
    ensures forall v ::
            from <= v < w ==> !(LineIn(cache, Slot(set_, v)).valid && LineIn(cache, Slot(set_, v)).tag == tag)
    decreases c.setSize - from
  {
    if from == c.setSize then from
    else
      var l := LineIn(cache, Slot(set_, from));
      if l.valid && l.tag == tag then from else HitWay(c, cache, set_, tag, from + 1)
  }

  /** The first unlocked way with the least timestamp among ways 0 to n - 1, or setSize. */
  function VictimWay(c: Config, cache: map<Slot, Line>, set_: nat, n: nat): nat
    requires n <= c.setSize
  {
    if n == 0 then c.setSize
    else
      var v := VictimWay(c, cache, set_, n - 1);
      var l := LineIn(cache, Slot(set_, n - 1));
      if !l.locked && (v == c.setSize || l.ts < LineIn(cache, Slot(set_, v)).ts) then n - 1 else v
  }

  /** Without an unlocked way the source falls back on way 0. */
  function MissSlot(c: Config, cache: map<Slot, Line>, set_: nat): Slot {
    var w := VictimWay(c, cache, set_, c.setSize);
    Slot(set_, if w == c.setSize then 0 else w)
  }

  function MissOp(t: Txn, slot: Slot, l: Line): Op {
    Op(t, slot, true, l.tag, l.valid, true, l.dirty, false)
  }

  /** contention_page_lock, contention_victim_lock and contention_cache_line_lock. */
  function LockMiss(c: Config, k: Core, t: Txn, a: Addr, slot: Slot): Core
    requires Good(c)
  {
    var l := LineIn(k.cache, slot);
    var victim := PageOf(c, l.tag, slot.set_);
    var pages, owner := k.pendingPages[a.page := 0], k.owner[a.page := a];
    CacheLineLock(k.(pendingPages := if l.valid then pages[victim := 0] else pages,
                     owner := if l.valid then owner[victim := a] else owner,
                     ops := k.ops[a := MissOp(t, slot, l)]), slot)
  }

  function MissPending(t: Txn, a: Addr, slot: Slot, l: Line): Pending {
    Pending(LineReadOp, t, a, slot, l.tag, l.valid, false)
  }

  function ProcessMiss(c: Config, s: Ctl, t: Txn, a: Addr): Outcome<Ctl>
    requires Good(c)
  {
    var slot := MissSlot(c, s.core.cache, SetOf(c, a.page));
    var l := LineIn(s.core.cache, slot);
    var p := MissPending(t, a, slot, l);
    var s1 := LineRead(c, s.(core := LockMiss(c, s.core, t, a, slot)), p);
    if l.dirty then VictimRead(c, s1, p) else Fine(s1)
  }

  function ProcessTransaction(c: Config, s: Ctl, t: Txn): Outcome<Ctl>
    requires Good(c)
  {
    var a := Align(c, t.addr);
    var _ :- Demand(a.page < c.totalPages);
    var set_ := SetOf(c, a.page);
    var w := HitWay(c, s.core.cache, set_, TagOf(c, a.page), 0);
    var o :- if t.kind == Prefetch then Fine(s.out) else LogProcess(s.out, t.addr);
    var s1 := s.(out := o);
    if w < c.setSize then ProcessHit(c, s1, t, a, Slot(set_, w)) else ProcessMiss(c, s1, t, a)
  }

  // Callbacks.

  function Flagged(k: Core, a: Addr, lineOut: bool, victimOut: bool, sent: bool): Core {
    if a in k.ops then
      var op := k.ops[a];
      k.(ops := k.ops[a := op.(lineOut := op.lineOut && lineOut, victimOut := op.victimOut && victimOut,
          sent := op.sent || sent)])
    else k
  }

  function Gather(got: nat -> int, off: nat, v: int): nat -> int {
    (o: nat) => if o == off then v else got(o)
  }

  function VictimReadFinish(c: Config, s: Ctl, off: nat, value: int, p: Pending): Outcome<Ctl>
    requires Good(c)
  {
    var t := s.tables;
    var _ :- Demand(p.slot in t.dramWait && p.slot in t.dramGot);
    var wait := t.dramWait[p.slot] - {off};
    var got := Gather(t.dramGot[p.slot], off, value);
    if wait != {} then
      Fine(s.(tables := t.(dramWait := t.dramWait[p.slot := wait], dramGot := t.dramGot[p.slot := got],
                           dramPending := t.dramPending[DAddr(p.slot, 0) := p])))
    else
      var k :- Decrement(Flagged(s.core, p.flash, true, false, false), p.flash.page);
      var s1 := s.(core := k, tables := t.(dramWait := t.dramWait - {p.slot}, dramGot := t.dramGot - {p.slot}));
      var s2 :- ContentionUnlock(s1, p.flash, p.victimValid, PageOf(c, p.victimTag, p.slot.set_), p.slot);
      var page := PageOf(c, p.victimTag, SetOf(c, p.flash.page));
      Fine(s2.(out := s2.out.(flashQueue := s2.out.flashQueue + ChunkWrites(page, Chunks(c), got))))
  }

  function DramReadCallback(c: Config, s: Ctl, key: DAddr, value: int): Outcome<Ctl>
    requires Good(c)
  {
    var t := s.tables;
    var at := if key.slot in t.dramWait then DAddr(key.slot, 0) else key;
    var _ :- Demand(at in t.dramPending);
    var p := t.dramPending[at];
    var s1 := s.(tables := t.(dramPending := t.dramPending - {at}));
    match p.op
    case VictimReadOp => VictimReadFinish(c, s1, key.off, value, p)
    case CacheReadOp => CacheReadFinish(c, s1, p, value)
    case LineReadOp => Abort
  }

  function GatherChunk(c: Config, got: nat -> int, idx: nat, v: nat -> int): nat -> int
    requires Good(c)
  {
    (o: nat) => if ChunkOf(c, o) == idx then v(o) else got(o)
  }

  /** The refilled page; a write miss merges its own burst. */
  function Merged(p: Pending, got: nat -> int): nat -> int {
    (o: nat) => if p.txn.kind == DataWrite && o == p.flash.off then p.txn.data else got(o)
  }

  function Refilled(c: Config, k: Core, p: Pending, now: nat): Line
    requires Good(c)
  {
    LineIn(k.cache, p.slot).(tag := TagOf(c, p.flash.page), dirty := false, valid := true, ts := now)
  }

  function LineReadFinish(c: Config, s: Ctl, idx: nat, value: nat -> int, p: Pending): Outcome<Ctl>
    requires Good(c)
  {
    var t := s.tables;
    var page := p.flash.page;
    var _ :- Demand(page in t.flashWait && page in t.flashGot);
    var wait := t.flashWait[page] - {idx};
    var got := GatherChunk(c, t.flashGot[page], idx, value);
    if wait != {} then
      Fine(s.(tables := t.(flashWait := t.flashWait[page := wait], flashGot := t.flashGot[page := got],
                           flashPending := t.flashPending[page := p])))
    else
      var k :- Decrement(Flagged(s.core, p.flash, false, true, false), page);
      var s1 := s.(core := SetLine(k, p.slot, Refilled(c, k, p, s.front.now)),
                   tables := t.(flashWait := t.flashWait - {page}, flashGot := t.flashGot - {page}),
                   out := s.out.(dramQueue := s.out.dramQueue + PageWrites(p.slot, Bursts(c), Merged(p, got))));
      match p.txn.kind
      case DataRead => CacheReadFinish(c, s1, p, got(p.flash.off))
      case DataWrite => CacheWriteFinish(c, s1, p)
      case Prefetch => ContentionUnlock(s1, p.flash, p.victimValid, PageOf(c, p.victimTag, p.slot.set_), p.slot)
  }

  function FlashReadCallback(c: Config, s: Ctl, key: FAddr, value: nat -> int): Outcome<Ctl>
    requires Good(c)
  {
    var t := s.tables;
    var _ :- Demand(key.page in t.flashPending);
    var p := t.flashPending[key.page];
    var _ :- Demand(p.op == LineReadOp);
    LineReadFinish(c, s.(tables := t.(flashPending := t.flashPending - {key.page})), key.idx, value, p)
  }

  function FlashCriticalLineCallback(s: Ctl, page: nat, value: int): Outcome<Ctl> {
    var t := s.tables;
    var _ :- Demand(page in t.flashPending);
    var p := t.flashPending[page];
    var _ :- Demand(p.op == LineReadOp && !p.callbackSent);
    var o :- match p.txn.kind
             case DataRead => Complete(s.out, false, p.txn, value)
             case DataWrite => Complete(s.out, true, p.txn, p.txn.data)
             case Prefetch => Fine(s.out);
    Fine(s.(out := o, core := Flagged(s.core, p.flash, true, true, true),
            tables := t.(flashPending := t.flashPending[page := p.(callbackSent := true)])))
  }

  // The front end.

  function AddTransaction(s: Ctl, isWrite: bool, addr: nat, id: nat, data: int): Ctl {
    if InMmioHole(addr) then
      s.(out := s.out.(done := s.out.done + [Completion(isWrite, id, addr, data)]))
    else
      var t := Txn(if isWrite then DataWrite else DataRead, Remap(addr), id, data);
      s.(front := s.front.(pendingCount := s.front.pendingCount + 1, queue := s.front.queue + [t], checkQueue := true),
         out := s.out.(logQueue := s.out.logQueue + [t.addr]))
  }

  function AddPrefetch(s: Ctl, addr: nat): Ctl {
    s.(front := s.front.(queue := [Txn(Prefetch, addr, 0, 0)] + s.front.queue,
                         pendingCount := s.front.pendingCount + 1, checkQueue := true))
  }

  /** The first transaction from index i on that contention lets through, or the queue's length. */
  function FirstUnlocked(c: Config, k: Core, queue: seq<Txn>, i: nat): (r: nat)
    requires Good(c) && i <= |queue|
    ensures i <= r <= |queue|
    ensures r < |queue| ==> IsUnlocked(c, k, Align(c, queue[r].addr))
    ensures forall j :: i <= j < r ==> !IsUnlocked(c, k, Align(c, queue[j].addr))
    decreases |queue| - i
  {
    if i == |queue| || IsUnlocked(c, k, Align(c, queue[i].addr)) then i
    else FirstUnlocked(c, k, queue, i + 1)
  }

  function Dispatch(c: Config, s: Ctl, i: nat): Ctl
    requires Good(c) && i < |s.front.queue|
  {
    var t := s.front.queue[i];
    s.(core := s.core.(pendingFlash := s.core.pendingFlash + {Align(c, t.addr)}),
       front := s.front.(active := Some(t), delay := c.controllerDelay, queue := Without(s.front.queue, i)))
  }

  function ScanQueue(c: Config, s: Ctl): Ctl
    requires Good(c)
  {
    if s.front.delay != 0 then s
    else if |s.core.pendingPages| < NumSets(c) && s.front.checkQueue
            && FirstUnlocked(c, s.core, s.front.queue, 0) < |s.front.queue| then
      Dispatch(c, s, FirstUnlocked(c, s.core, s.front.queue, 0))
    else s.(front := s.front.(checkQueue := false))
  }

  function TailIf<T>(q: seq<T>, taken: bool): seq<T> { if taken && q != [] then q[1..] else q }

  /** The part of update() that looks up the active transaction and picks the next one. */
  function Advance(c: Config, s: Ctl): Outcome<Ctl>
    requires Good(c)
  {
    var s1 :- if s.front.active.Some? && s.front.delay == 0 then
                var s' :- ProcessTransaction(c, s, s.front.active.value);
                Fine(s'.(front := s'.front.(active := None)))
              else Fine(s);
    Fine(ScanQueue(c, s1))
  }

  /** The rest: at most one request goes to each memory, and the clock moves on. */
  function Send(s: Ctl, dramTakes: bool, flashTakes: bool): Ctl {
    s.(out := s.out.(dramQueue := TailIf(s.out.dramQueue, dramTakes),
        flashQueue := TailIf(s.out.flashQueue, flashTakes)),
       front := s.front.(delay := if s.front.delay > 0 then s.front.delay - 1 else 0, now := s.front.now + 1))
  }

  /** update(): dramTakes and flashTakes say whether each memory accepted the head of its queue. */
  function Update(c: Config, s: Ctl, dramTakes: bool, flashTakes: bool): Outcome<Ctl>
    requires Good(c)
  {
    var s1 :- Advance(c, s);
    Fine(Send(s1, dramTakes, flashTakes))
  }
}
