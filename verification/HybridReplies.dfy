/** Each callback of the memories: it cannot fail, and it keeps the whole invariant. */
module HybridReplies {
  import opened Basics
  import opened HybridGeometry
  import opened InOrderMemory
  import opened HybridController
  import opened HybridLocks
  import opened HybridTables
  import opened HybridLockSteps
  import opened HybridMissSteps
  import opened HybridCallbacks
  import opened HybridLedger
  import opened HybridContents
  import opened HybridReads
  import opened HybridInvariant
  import opened HybridReturns
  import opened HybridSteps
  import opened HybridProgress

  ghost function Active(c: Config, s: Ctl): set<Addr>
    requires Good(c)
  {
    ActiveAddr(c, s.front.active)
  }

  /** The completion of a read or a write answers the request that the operation stands for. */
  lemma Replies(c: Config, s: Ctl, u: Callers, a: Addr, value: int)
    requires Good(c) && Accounted(c, u.hist, LedgerOf(s)) && a in s.core.ops && Open(s.core.ops[a])
    requires var t := s.core.ops[a].txn; t.kind == DataRead ==> t.id < |u.hist| && value == u.hist[t.id].answer
    ensures var t := s.core.ops[a].txn;
            Answers(u.hist, Completion(t.kind == DataWrite, t.id, CallbackAddr(t.addr), value))
                && t.addr in s.out.logMap
  {
    hide Accounted;
    OpenKnown(c, u.hist, LedgerOf(s), a);
    RemapRoundTrip(u.hist[s.core.ops[a].txn.id].addr);
  }

  // DRAM.

  lemma CacheReadReply(c: Config, s: Ctl, m: Memories, u: Callers, g: Aux, key: DAddr, value: int) returns (s': Ctl)
    requires Good(c) && Whole(c, s, m, u, g) && DramAnswered(s, m, u, g, key, value) && key.slot !in s.tables.dramWait
    ensures DramReadCallback(c, s, key, value) == Fine(s') && Whole(c, s', m, u, g)
    ensures s'.out.dramQueue == s.out.dramQueue && s'.out.flashQueue == s.out.flashQueue
    ensures DramAdvances(c, s, s', key)
  {
    hide Locked, Accounted, Faithful, Align, DramReadCallback, IsUnlocked, DramAdvances;
    var p := s.tables.dramPending[key];
    var a := p.flash;
    DramEntryFacts(c, s.core, s.tables, key, Active(c, s));
    LockedOpFacts(c, s.core, s.tables, a, Active(c, s));
    Aligned(c, s.core, s.tables, Active(c, s));
    Replies(c, s, u, a, value);
    CacheReadBack(c, s, key, value, Active(c, s));
    s' := Ctl(EndHitCore(s.core, a, p.slot), s.tables.(dramPending := s.tables.dramPending - {key}), Woken(s.front),
              Reported(s.out, false, p.txn, value, false));
    CacheReadBackFaithful(c, s, m, u, g, key, value, Active(c, s), s');
    CacheReadAdvances(c, s, s', key, a, Active(c, s));
    Answered(c, u.hist, LedgerOf(s), a, Completion(false, p.txn.id, CallbackAddr(p.txn.addr), value));
    Removed(s.core.pendingFlash, a);
  }

  lemma VictimPartReply(c: Config, s: Ctl, m: Memories, u: Callers, g: Aux, key: DAddr, value: int) returns (s': Ctl)
    requires Good(c) && Whole(c, s, m, u, g) && DramAnswered(s, m, u, g, key, value)
    requires key.slot in s.tables.dramWait && s.tables.dramWait[key.slot] - {key.off} != {}
    ensures DramReadCallback(c, s, key, value) == Fine(s') && Whole(c, s', m, u, g) && s'.out == s.out
    ensures DramAdvances(c, s, s', key)
  {
    hide Locked, Accounted, Faithful, Align, DramReadCallback, IsUnlocked, DramAnswered, DramAdvances;
    VictimPart(c, s, key, value, Active(c, s));
    s' := s.(tables := s.tables.(dramWait := s.tables.dramWait[key.slot := s.tables.dramWait[key.slot] - {key.off}],
                                 dramGot := s.tables.dramGot[key.slot :=
                                     Gather(s.tables.dramGot[key.slot], key.off, value)]));
    VictimPartFaithful(c, s, m, u, g, key, value, s');
    VictimPartAdvances(c, s, s', key, Gather(s.tables.dramGot[key.slot], key.off, value));
  }

  lemma VictimAfter(c: Config, k: Core, a: Addr)
    requires Good(c) && a in k.ops && k.ops[a].slot in k.cache && a.page in k.pendingPages
    ensures var last := !k.ops[a].lineOut;
            var k' := if last then EndMissCore(c, k, a, LineIn(k.cache, k.ops[a].slot)) else VictimCore(k, a);
            AfterVictim(c, k, a, k') && Progress(c, k, k', a, k.ops[a].(victimOut := false), last)
  {
    hide MissGone;
  }

  lemma HeldInCache(c: Config, k: Core, tb: Tables, a: Addr, active: set<Addr>)
    requires Good(c) && Locked(c, k, tb, active) && a in k.ops
    ensures k.ops[a].slot in k.cache
  {
    hide Locked;
    LockedOpFacts(c, k, tb, a, active);
  }

  lemma VictimBackReply(c: Config, s: Ctl, m: Memories, u: Callers, g: Aux, key: DAddr, value: int)
    returns (s': Ctl, rf: seq<Req<FAddr, nat -> int>>)
    requires Good(c) && Whole(c, s, m, u, g) && DramAnswered(s, m, u, g, key, value)
    requires key.slot in s.tables.dramWait && s.tables.dramWait[key.slot] - {key.off} == {}
    ensures DramReadCallback(c, s, key, value) == Fine(s') && Whole(c, s', SubmitBoth(m, [], rf), u, g)
    ensures s'.out.dramQueue == s.out.dramQueue && s'.out.flashQueue == s.out.flashQueue + rf
    ensures DramAdvances(c, s, s', key)
  {
    hide DramAdvances, Locked, Accounted, Faithful, Align, DramReadCallback, IsUnlocked, DramAnswered, EndMissCore,
      PageOf, ChunkWrites, Chunks, SubmitBoth, AfterVictim, Gather, Awake, LineOf, Progress, VictimCore;
    VictimBack(c, s, key, value, Active(c, s));
    var p := s.tables.dramPending[DAddr(key.slot, 0)];
    var a := p.flash;
    var k := s.core;
    var last := !k.ops[a].lineOut;
    VictimEntryFacts(c, k, s.tables, key.slot, Active(c, s));
    LockedOpFacts(c, k, s.tables, a, Active(c, s));
    HeldInCache(c, k, s.tables, a, Active(c, s));
    VictimAfter(c, k, a);
    var got := Gather(s.tables.dramGot[key.slot], key.off, value);
    rf := ChunkWrites(VictimPage(c, k.ops[a]), Chunks(c), got);
    s' := Ctl(if last then EndMissCore(c, k, a, LineIn(k.cache, key.slot)) else VictimCore(k, a),
        VictimTables(s.tables, key.slot),
              if last then Woken(s.front) else s.front, VictimOut(c, s.out, p, got));
    VictimBackFaithful(c, s, m, u, g, key, value, Active(c, s), a, s');
    ChunkCount(VictimPage(c, k.ops[a]), Chunks(c), got);
    ProgressReleases(c, s, s', a, k.ops[a].(victimOut := false), last);
    VictimAdvances(c, s, s', key, a, last, Active(c, s));
    MissEnds(c, s, u, s', a, k.ops[a].(victimOut := false), last);
  }

  lemma ChunkCount(page: nat, n: nat, got: nat -> int)
    ensures |ChunkWrites(page, n, got)| == n
  {
  }

  lemma BurstCount(slot: Slot, n: nat, content: nat -> int)
    ensures |PageWrites(slot, n, content)| == n
  {
  }

  lemma ProgressReleases(c: Config, s: Ctl, s': Ctl, a: Addr, op: Op, last: bool)
    requires Good(c) && a in s.core.pendingFlash && Progress(c, s.core, s'.core, a, op, last)
    requires s'.front == if last then Woken(s.front) else s.front
    ensures Releases(s.core, s'.core, s.front, s'.front, a, last)
  {
  }

  /** The ledger, the counters and the wake-up when a miss makes progress without answering. */
  lemma MissEnds(c: Config, s: Ctl, u: Callers, s': Ctl, a: Addr, op: Op, last: bool)
    requires Good(c) && Accounted(c, u.hist, LedgerOf(s)) && Counting(s.core, s.front) && Awake(c, s.core, s.front)
    requires a in s.core.ops && op.txn == s.core.ops[a].txn && a in s.core.pendingFlash
    requires if last then !Open(s.core.ops[a]) else Open(op) == Open(s.core.ops[a])
    requires s'.out.done == s.out.done && s'.out.logQueue == s.out.logQueue && s'.out.logMap == s.out.logMap
    requires Progress(c, s.core, s'.core, a, op, last)
    requires s'.front == if last then Woken(s.front) else s.front
    ensures Accounted(c, u.hist, LedgerOf(s')) && Counting(s'.core, s'.front) && Awake(c, s'.core, s'.front)
  {
    hide Accounted, Align, IsUnlocked, Open;
    assert WaitingOf(s'.front) == WaitingOf(s.front);
    ProgressAwake(c, s.core, s'.core, s.front, s'.front, a, op, last);
    if last {
      Ended(c, u.hist, LedgerOf(s), a);
    } else {
      Flags(c, u.hist, LedgerOf(s), a, op);
    }
  }

  /** A miss that goes on keeps its locks; one that ends gives up its address. */
  ghost predicate Progress(c: Config, k: Core, k': Core, a: Addr, op: Op, last: bool)
    requires Good(c)
  {
    if last then k'.ops == k.ops - {a} && k'.pendingFlash == k.pendingFlash - {a}
    else k'.ops == k.ops[a := op] && k'.pendingFlash == k.pendingFlash
         && k'.pendingPages.Keys == k.pendingPages.Keys && k'.setCounter == k.setCounter
  }

  lemma ProgressAwake(c: Config, k: Core, k': Core, f: Front, f': Front, a: Addr, op: Op, last: bool)
    requires Good(c) && Counting(k, f) && Awake(c, k, f) && a in k.pendingFlash && Progress(c, k, k', a, op, last)
    requires f' == if last then Woken(f) else f
    ensures Counting(k', f') && Awake(c, k', f')
  {
    hide Align, IsUnlocked, Awake;
    if last {
      Removed(k.pendingFlash, a);
      WokenAwake(c, k', f');
    } else {
      AwakeKept(c, k, k', f, f');
    }
  }

  lemma WokenAwake(c: Config, k: Core, f: Front)
    requires Good(c) && f.checkQueue
    ensures Awake(c, k, f)
  {
  }

  lemma DramReply(c: Config, s: Ctl, m: Memories, u: Callers, g: Aux, key: DAddr, value: int)
    returns (s': Ctl, rf: seq<Req<FAddr, nat -> int>>)
    requires Good(c) && Whole(c, s, m, u, g) && DramAnswered(s, m, u, g, key, value)
    ensures DramReadCallback(c, s, key, value) == Fine(s') && Whole(c, s', SubmitBoth(m, [], rf), u, g)
    ensures s'.out.dramQueue == s.out.dramQueue && s'.out.flashQueue == s.out.flashQueue + rf
    ensures DramAdvances(c, s, s', key)
  {
    hide Whole, DramAdvances, DramAnswered, DramReadCallback, SubmitBoth;
    rf := [];
    SubmitNothing(m);
    if key.slot !in s.tables.dramWait {
      s' := CacheReadReply(c, s, m, u, g, key, value);
    } else if s.tables.dramWait[key.slot] - {key.off} != {} {
      s' := VictimPartReply(c, s, m, u, g, key, value);
    } else {
      s', rf := VictimBackReply(c, s, m, u, g, key, value);
    }
  }

  // Flash.

  lemma LinePartReply(c: Config, s: Ctl, m: Memories, u: Callers, g: Aux, key: FAddr, value: nat -> int)
      returns (s': Ctl)
    requires Good(c) && Whole(c, s, m, u, g) && FlashAnswered(c, s, m, g, key, value)
             && s.tables.flashWait[key.page] - {key.idx} != {}
    ensures FlashReadCallback(c, s, key, value) == Fine(s') && Whole(c, s', m, u, g) && s'.out == s.out
    ensures FlashAdvances(c, s, s', key)
  {
    hide Locked, Accounted, Faithful, Align, FlashReadCallback, IsUnlocked, GatherChunk, FlashAdvances;
    LinePart(c, s, key, value, Active(c, s));
    s' := s.(tables := s.tables.(flashWait := s.tables.flashWait[key.page := s.tables.flashWait[key.page] - {key.idx}],
                                 flashGot := s.tables.flashGot[key.page :=
                                     GatherChunk(c, s.tables.flashGot[key.page], key.idx, value)]));
    LinePartFaithful(c, s, m, u, g, key, value, s');
    LinePartAdvances(c, s, s', key, GatherChunk(c, s.tables.flashGot[key.page], key.idx, value));
  }

  lemma LineAfter(c: Config, k: Core, a: Addr, p: Pending, now: nat)
    requires Good(c) && a in k.ops && a.page in k.pendingPages && p.flash == a && PendingOf(k.ops[a], p)
    ensures var last := !k.ops[a].victimOut;
            var l := FillLine(c, k, p, now);
            var k' := if last then EndMissCore(c, k, a, l) else LineCore(k, a, l);
            AfterLine(c, k, a, k') && Progress(c, k, k', a, k.ops[a].(lineOut := false), last)
  {
    hide MissGone, TagOf;
  }

  /** The ledger and the wake-up when the line of a miss arrives. */
  lemma LineEnds(c: Config, s: Ctl, u: Callers, s': Ctl, a: Addr, p: Pending, got: nat -> int, last: bool)
    requires Good(c) && Accounted(c, u.hist, LedgerOf(s)) && Counting(s.core, s.front) && Awake(c, s.core, s.front)
    requires forall b :: b in s.core.ops ==> Align(c, s.core.ops[b].txn.addr) == b
    requires a in s.core.ops && a in s.core.pendingFlash && s.core.ops[a].miss && s.core.ops[a].lineOut
    requires p.txn == s.core.ops[a].txn && p.callbackSent == s.core.ops[a].sent && p.flash == a
    requires p.txn.kind == DataRead && Open(s.core.ops[a]) ==>
             p.txn.id < |u.hist| && got(a.off) == u.hist[p.txn.id].answer
    requires s'.out == FillOut(c, s.out, p, got)
    requires Progress(c, s.core, s'.core, a, s.core.ops[a].(lineOut := false), last)
    requires s'.front == if last then Woken(s.front) else s.front
    ensures Accounted(c, u.hist, LedgerOf(s')) && Counting(s'.core, s'.front) && Awake(c, s'.core, s'.front)
  {
    hide Accounted, Align, IsUnlocked, Awake, PageWrites, Answers;
    var op := s.core.ops[a].(lineOut := false);
    assert WaitingOf(s'.front) == WaitingOf(s.front);
    ProgressAwake(c, s.core, s'.core, s.front, s'.front, a, op, last);
    if Open(s.core.ops[a]) {
      var value := if p.txn.kind == DataRead then got(a.off) else p.txn.data;
      Replies(c, s, u, a, value);
      var d := Completion(p.txn.kind == DataWrite, p.txn.id, CallbackAddr(p.txn.addr), value);
      if last { Answered(c, u.hist, LedgerOf(s), a, d); } else { AnsweredEarly(c, u.hist, LedgerOf(s), a, op, d); }
    } else {
      if last { Ended(c, u.hist, LedgerOf(s), a); } else { Flags(c, u.hist, LedgerOf(s), a, op); }
    }
  }

  lemma LineBackReply(c: Config, s: Ctl, m: Memories, u: Callers, g: Aux, key: FAddr, value: nat -> int)
    returns (s': Ctl, rd: seq<Req<DAddr, int>>)
    requires Good(c) && Whole(c, s, m, u, g) && FlashAnswered(c, s, m, g, key, value)
             && s.tables.flashWait[key.page] - {key.idx} == {}
    ensures FlashReadCallback(c, s, key, value) == Fine(s') && Whole(c, s', SubmitBoth(m, rd, []), u, g)
    ensures s'.out.flashQueue == s.out.flashQueue && s'.out.dramQueue == s.out.dramQueue + rd
    ensures FlashAdvances(c, s, s', key)
  {
    hide FlashAdvances, Locked, Accounted, Faithful, Align, FlashReadCallback, IsUnlocked, EndMissCore, LineCore,
      PageOf, PageWrites, Bursts, SubmitBoth, AfterLine, Progress, GatherChunk, Awake, LineOf, FillLine, Merged;
    var p := s.tables.flashPending[key.page];
    var a := p.flash;
    var k := s.core;
    FlashEntryFacts(c, k, s.tables, key.page, Active(c, s));
    LockedOpFacts(c, k, s.tables, a, Active(c, s));
    Aligned(c, k, s.tables, Active(c, s));
    OpenKnown(c, u.hist, LedgerOf(s), a);
    LineBack(c, s, key, value, Active(c, s));
    LineAfter(c, k, a, p, s.front.now);
    var last := !k.ops[a].victimOut;
    var l := FillLine(c, k, p, s.front.now);
    var got := GatherChunk(c, s.tables.flashGot[key.page], key.idx, value);
    rd := PageWrites(p.slot, Bursts(c), Merged(p, got));
    s' := Ctl(if last then EndMissCore(c, k, a, l) else LineCore(k, a, l), LineTables(s.tables, key.page),
              if last then Woken(s.front) else s.front, FillOut(c, s.out, p, got));
    LineBackFaithful(c, s, m, u, g, key, value, Active(c, s), p, s');
    LineEnds(c, s, u, s', a, p, got, last);
    BurstCount(p.slot, Bursts(c), Merged(p, got));
    ProgressReleases(c, s, s', a, k.ops[a].(lineOut := false), last);
    LineAdvances(c, s, s', key, a, last);
  }

  lemma FlashReply(c: Config, s: Ctl, m: Memories, u: Callers, g: Aux, key: FAddr, value: nat -> int)
    returns (s': Ctl, rd: seq<Req<DAddr, int>>)
    requires Good(c) && Whole(c, s, m, u, g) && FlashAnswered(c, s, m, g, key, value)
    ensures FlashReadCallback(c, s, key, value) == Fine(s') && Whole(c, s', SubmitBoth(m, rd, []), u, g)
    ensures s'.out.flashQueue == s.out.flashQueue && s'.out.dramQueue == s.out.dramQueue + rd
    ensures FlashAdvances(c, s, s', key)
  {
    hide Whole, FlashReadCallback, SubmitBoth, FlashAdvances;
    rd := [];
    SubmitNothing(m);
    if s.tables.flashWait[key.page] - {key.idx} != {} {
      s' := LinePartReply(c, s, m, u, g, key, value);
    } else {
      s', rd := LineBackReply(c, s, m, u, g, key, value);
    }
  }

  /** What the flash may send as the critical line of a page. */
  ghost predicate CriticalData(c: Config, s: Ctl, g: Aux, page: nat, v: nat -> int)
    requires Good(c)
  {
    && page in s.tables.flashPending && page in s.tables.flashWait && page in s.tables.flashGot
    && !s.tables.flashPending[page].callbackSent
    && var chunk := ChunkOf(c, s.tables.flashPending[page].flash.off);
       if chunk in s.tables.flashWait[page] then FlashReadOk(c, s.tables, g.prom, FAddr(page, chunk), v)
       else v == s.tables.flashGot[page]
  }

  ghost function CriticalOut(o: Out, p: Pending, value: int): Out {
    match p.txn.kind
    case DataRead => Reported(o, false, p.txn, value, false)
    case DataWrite => Reported(o, true, p.txn, p.txn.data, false)
    case Prefetch => o
  }

  lemma SentProgress(c: Config, k: Core, a: Addr)
    requires Good(c) && a in k.ops
    ensures Progress(c, k, SentCore(k, a), a, k.ops[a].(sent := true), false)
  {
  }

  lemma CriticalReply(c: Config, s: Ctl, m: Memories, u: Callers, g: Aux, page: nat, v: nat -> int) returns (s': Ctl)
    requires Good(c) && Whole(c, s, m, u, g) && CriticalData(c, s, g, page, v)
    ensures FlashCriticalLineCallback(s, page, v(s.tables.flashPending[page].flash.off)) == Fine(s')
            && Whole(c, s', m, u, g)
    ensures s'.out.flashQueue == s.out.flashQueue && s'.out.dramQueue == s.out.dramQueue
    ensures Asks(s.tables, s'.tables, [], []) && Work(c, s') == Work(c, s)
  {
    hide Asks, Work, Locked, Accounted, Faithful, Align, FlashCriticalLineCallback, IsUnlocked, PageOf, Bursts,
      Progress, Awake, LineOf, ChunkOf, Answers, FlashReadOk;
    var p := s.tables.flashPending[page];
    var a := p.flash;
    var k := s.core;
    var value := v(a.off);
    FlashEntryFacts(c, k, s.tables, page, Active(c, s));
    LockedOpFacts(c, k, s.tables, a, Active(c, s));
    Aligned(c, k, s.tables, Active(c, s));
    AlignFaithful(c, k.ops[a].txn.addr);
    OpenKnown(c, u.hist, LedgerOf(s), a);
    CriticalLine(c, s, page, value, Active(c, s));
    s' := Ctl(SentCore(k, a), s.tables.(flashPending := s.tables.flashPending[page := p.(callbackSent := true)]),
        s.front, CriticalOut(s.out, p, value));
    CriticalFaithful(c, s, m, u, g, page, Active(c, s), s');
    if p.txn.kind == DataRead { CriticalValue(c, s, m, u, g, page, v); }
    CriticalEnds(c, s, u, s', a, p, value);
    CriticalAdvances(c, s, s');
  }

  lemma CriticalEnds(c: Config, s: Ctl, u: Callers, s': Ctl, a: Addr, p: Pending, value: int)
    requires Good(c) && Accounted(c, u.hist, LedgerOf(s)) && Counting(s.core, s.front) && Awake(c, s.core, s.front)
    requires forall b :: b in s.core.ops ==> Align(c, s.core.ops[b].txn.addr) == b
    requires a in s.core.ops && a in s.core.pendingFlash && s.core.ops[a].miss && s.core.ops[a].lineOut
             && !s.core.ops[a].sent
    requires p.txn == s.core.ops[a].txn && p.flash == a
    requires p.txn.kind == DataRead ==> p.txn.id < |u.hist| && value == u.hist[p.txn.id].answer
    requires s'.out == CriticalOut(s.out, p, value) && s'.core == SentCore(s.core, a) && s'.front == s.front
    ensures Accounted(c, u.hist, LedgerOf(s')) && Counting(s'.core, s'.front) && Awake(c, s'.core, s'.front)
  {
    hide Accounted, Align, IsUnlocked, Awake, Answers;
    var op := s.core.ops[a].(sent := true);
    SentProgress(c, s.core, a);
    ProgressAwake(c, s.core, s'.core, s.front, s'.front, a, op, false);
    if Open(s.core.ops[a]) {
      var val := if p.txn.kind == DataRead then value else p.txn.data;
      Replies(c, s, u, a, val);
      AnsweredEarly(c, u.hist, LedgerOf(s), a, op, Completion(p.txn.kind == DataWrite, p.txn.id,
          CallbackAddr(p.txn.addr), val));
    } else {
      Flags(c, u.hist, LedgerOf(s), a, op);
    }
  }
}
