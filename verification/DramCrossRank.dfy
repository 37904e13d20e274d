/**
 What the ranks of a channel ask of one another, because they share its data bus: the distances between
 column commands of different ranks, and when read data of two ranks can meet.
 */
module DramCrossRank {
  import opened Basics
  import opened DramBanks
  import opened DramQueues
  import opened DramScheduling
  import opened DramSchedulerSteps
  import opened DramPipes
  import opened DramRuns
  import opened DramSafety
  import opened DramSpacing
  import opened DramData

  // Distances.

  /**
   The least distance of two column commands of different ranks if the row of the second was open already:
   the first burst and the switch of the bus, and the difference of the latencies.
   */
  function CrossGap(p: Params, first: Kind, second: Kind): int {
    if IsRead(first) && IsWrite(second) then (p.CL + p.AL) + p.BL / 2 + p.tRTRS - (p.CL + p.AL - 1)
    else if IsWrite(first) && IsRead(second) then (p.CL + p.AL - 1) + p.BL / 2 + p.tRTRS - (p.CL + p.AL)
    else p.BL / 2 + p.tRTRS
  }

  predicate Activates(c: Packet, rank: nat, bank: nat) { c.kind == Activate && c.at.rank == rank && c.at.bank == bank }

  /** The bank was activated between the commands i and j. */
  ghost predicate Reopens(log: seq<Issued>, i: int, j: int, rank: nat, bank: nat) {
    exists k :: i < k < j && 0 <= k < |log| && Activates(log[k].cmd, rank, bank)
  }

  /** An open bank of another rank waits for the data of a column command popped at time t. */
  ghost predicate Yields(p: Params, s: BankState, c: Packet, t: int) {
    s.state == RowActive && s.countdown == 0 ==>
      s.nextRead >= t + CrossGap(p, c.kind, Read) && s.nextWrite >= t + CrossGap(p, c.kind, Write)
  }

  lemma IssueYields(p: Params, s: BankState, rank: nat, bank: nat, c: Packet, now: int, e: Packet, t: int)
    requires Sane(p) && InPolicy(p, c.kind) && IsColumn(e.kind) && !Activates(c, rank, bank)
    requires Concerns(c, rank, bank) ==> BankReady(p, s, c, now)
    requires (t < now && Yields(p, s, e, t)) || (t == now && c == e && c.at.rank != rank)
    ensures Yields(p, IssueBank(p, s, rank, bank, c, now), e, t)
  {
  }

  lemma TickYields(p: Params, s: BankState, now: int, e: Packet, t: int)
    requires TimerOk(p, s, now) && Yields(p, s, e, t)
    ensures Yields(p, TickBank(p, s), e, t)
  {
  }

  lemma ReadyYields(p: Params, s: BankState, c: Packet, now: int, e: Packet, t: int)
    requires TimerOk(p, s, now) && IsColumn(c.kind) && BankReady(p, s, c, now) && Yields(p, s, e, t)
    ensures now - t >= CrossGap(p, e.kind, c.kind)
  {
  }

  ghost predicate AllYield(p: Params, log: seq<Issued>, banks: Banks)
    requires GridOf(p, banks)
  {
    forall i, r: nat, b: nat ::
      0 <= i < |log| && IsColumn(log[i].cmd.kind) && InRange(p, r, b) && r != log[i].cmd.at.rank ==>
        Reopens(log, i, |log|, r, b) || Yields(p, banks[r][b], log[i].cmd, log[i].time)
  }

  /** Column commands of different ranks. */
  predicate CrossPair(c: Packet, d: Packet) { IsColumn(c.kind) && IsColumn(d.kind) && c.at.rank != d.at.rank }

  ghost predicate CrossSpaced(p: Params, log: seq<Issued>) {
    forall i, j :: 0 <= i < j < |log| && CrossPair(log[i].cmd, log[j].cmd) ==>
      || Reopens(log, i, j, log[j].cmd.at.rank, log[j].cmd.at.bank)
      || log[j].time - log[i].time >= CrossGap(p, log[i].cmd.kind, log[j].cmd.kind)
  }

  lemma ReopensSnoc(log: seq<Issued>, e: Issued, i: int, j: int, rank: nat, bank: nat)
    requires 0 <= i && j <= |log|
    ensures Reopens(log + [e], i, j, rank, bank) <==> Reopens(log, i, j, rank, bank)
    ensures Reopens(log + [e], i, |log| + 1, rank, bank) <==>
              Reopens(log, i, |log|, rank, bank) || (i < |log| && Activates(e.cmd, rank, bank))
  {
    var log' := log + [e];
    forall k | 0 <= k < |log| ensures log'[k] == log[k] {}
    if k :| i < k < j && 0 <= k < |log| && Activates(log[k].cmd, rank, bank) {
      assert Activates(log'[k].cmd, rank, bank);
    }
    if k :| i < k < |log| && 0 <= k < |log| && Activates(log[k].cmd, rank, bank) {
      assert Activates(log'[k].cmd, rank, bank);
    }
    if i < |log| && Activates(e.cmd, rank, bank) { assert Activates(log'[|log|].cmd, rank, bank); }
  }

  lemma IssuedYield(p: Params, log: seq<Issued>, banks: Banks, c: Packet, now: int)
    requires Sane(p) && GridOf(p, banks) && LogOk(p, log, now) && ReadyCommand(p, banks, c, now)
             && AllYield(p, log, banks)
    ensures AllYield(p, log + [Issued(now, c)], IssueAll(p, banks, c, now))
  {
    hide Sane, IssueBank, BankReady, Yields, Reopens;
    var log', banks' := log + [Issued(now, c)], IssueAll(p, banks, c, now);
    forall i, r: nat, b: nat | 0 <= i < |log'| && IsColumn(log'[i].cmd.kind) && InRange(p, r, b)
      && r != log'[i].cmd.at.rank
                               && !Reopens(log', i, |log'|, r, b)
      ensures Yields(p, banks'[r][b], log'[i].cmd, log'[i].time)
    {
      ReopensSnoc(log, Issued(now, c), i, |log|, r, b);
      IssueYields(p, banks[r][b], r, b, c, now, log'[i].cmd, log'[i].time);
    }
  }

  lemma IssuedCrossSpaced(p: Params, log: seq<Issued>, banks: Banks, c: Packet, now: int)
    requires GridOf(p, banks) && TimersOk(p, banks, now) && ReadyCommand(p, banks, c, now)
    requires AllYield(p, log, banks) && CrossSpaced(p, log)
    ensures CrossSpaced(p, log + [Issued(now, c)])
  {
    hide BankReady, Yields, Reopens, TimerOk, CrossGap;
    var log' := log + [Issued(now, c)];
    forall i, j | 0 <= i < j < |log'| && CrossPair(log'[i].cmd, log'[j].cmd)
                  && !Reopens(log', i, j, log'[j].cmd.at.rank, log'[j].cmd.at.bank)
      ensures log'[j].time - log'[i].time >= CrossGap(p, log'[i].cmd.kind, log'[j].cmd.kind)
    {
      var at := log'[j].cmd.at;
      ReopensSnoc(log, Issued(now, c), i, j, at.rank, at.bank);
      if j == |log| { ReadyYields(p, banks[at.rank][at.bank], c, now, log[i].cmd, log[i].time); }
    }
  }

  lemma TickedYield(p: Params, log: seq<Issued>, banks: Banks, now: int)
    requires GridOf(p, banks) && TimersOk(p, banks, now) && AllYield(p, log, banks)
    ensures GridOf(p, TickAll(p, banks)) && AllYield(p, log, TickAll(p, banks))
  {
    hide TickBank, Yields, TimerOk, Reopens;
    var banks' := TickAll(p, banks);
    forall i, r: nat, b: nat | 0 <= i < |log| && IsColumn(log[i].cmd.kind) && InRange(p, r, b)
      && r != log[i].cmd.at.rank
                               && !Reopens(log, i, |log|, r, b)
      ensures Yields(p, banks'[r][b], log[i].cmd, log[i].time)
    {
      TickYields(p, banks[r][b], now, log[i].cmd, log[i].time);
    }
  }

  ghost predicate CrossOk(p: Params, m: Mem) {
    && GridOf(p, TickAll(p, m.rows.banks)) && LogOk(p, m.past.log, m.now)
    && AllYield(p, m.past.log, TickAll(p, m.rows.banks)) && CrossSpaced(p, m.past.log)
  }

  lemma CycleCross(p: Params, m: Mem, refresh: Option<nat>, pick: Pick)
    requires Sane(p) && Placed(p) && Safe(p, m.rows, m.sched, m.now) && CycleAllowed(p, m, refresh, pick)
             && CrossOk(p, m)
    ensures CrossOk(p, Cycle(p, m, refresh, pick))
  {
    hide Safe, SchedOk, Sane, Picked, Split, ReceiveAll, Prepared, TimersOk, Placed, CycleAllowed, GridOf, TickAll,
      IssueAll, LogOk, Command, ReadyCommand, AllYield, CrossSpaced;
    PoppedReady(p, m, refresh, pick);
    CycleBanks(p, m, refresh, pick);
    CycleBack(p, m, refresh, pick);
    var banks, log, now := TickAll(p, m.rows.banks), m.past.log, m.now;
    var c := CommandOf(p, m, refresh, pick);
    if c.Some? {
      IssuedYield(p, log, banks, c.value, now);
      IssuedCrossSpaced(p, log, banks, c.value, now);
      TickedYield(p, log + [Issued(now, c.value)], IssueAll(p, banks, c.value, now), now);
      NextLog(p, log, banks, c.value, now);
    } else {
      TickedYield(p, log, banks, now);
      LaterLog(p, log, now);
    }
  }

  lemma NextLog(p: Params, log: seq<Issued>, banks: Banks, c: Packet, now: int)
    requires LogOk(p, log, now) && GridOf(p, banks) && ReadyCommand(p, banks, c, now)
    ensures LogOk(p, log + [Issued(now, c)], now + 1)
  {
  }

  // Read data on the bus.

  /** Cycles until the data of a read popped at time t is on the bus, seen at time n; zero or less once it is. */
  function Until(p: Params, t: int, n: int): int { RL(p) - (n - t - 2) }

  ghost predicate FromRead(p: Params, log: seq<Issued>, rank: nat, n: int, x: int) {
    exists i :: 0 <= i < |log| && ReadsRank(log[i], rank) && Until(p, log[i].time, n) == x
  }

  ghost predicate Present(p: Params, d: Pipe, x: int) {
    if x > 0 then exists k :: 0 <= k < |d.counts| && d.counts[k] == x
    else x > -Burst(p) ==> d.out.Some? && d.left == Burst(p) + x
  }

  /** The pipe of a rank holds the data of its reads popped before `limit`, each at its place, and nothing else. */
  ghost predicate Traced(p: Params, d: Pipe, log: seq<Issued>, rank: nat, n: int, limit: int) {
    && (forall k :: 0 <= k < |d.counts| ==> FromRead(p, log, rank, n, d.counts[k]))
    && (d.out.Some? ==> FromRead(p, log, rank, n, d.left - Burst(p)))
    && (forall i ::
       0 <= i < |log| && ReadsRank(log[i], rank) && log[i].time < limit ==> Present(p, d, Until(p, log[i].time, n)))
  }

  lemma Sooner(p: Params, log: seq<Issued>, rank: nat, n: int, x: int)
    requires FromRead(p, log, rank, n, x)
    ensures FromRead(p, log, rank, n + 1, x - 1)
  {
    var i :| 0 <= i < |log| && ReadsRank(log[i], rank) && Until(p, log[i].time, n) == x;
    assert Until(p, log[i].time, n + 1) == x - 1;
  }

  lemma PresentTick(p: Params, d: Pipe, x: int)
    requires Flows(d, Burst(p)) && Burst(p) >= 1 && Present(p, d, x)
    ensures Present(p, Ticked(d, Burst(p)), x - 1)
  {
    var d' := Ticked(d, Burst(p));
    if x > 0 {
      var k :| 0 <= k < |d.counts| && d.counts[k] == x;
      if d.counts[0] == 1 {
        assert k == 0 || d.counts[k] >= d.counts[0] + Burst(p);
        if k > 0 { assert d'.counts[k - 1] == x - 1; }
      } else {
        assert k == 0 || d.counts[k] >= d.counts[0] + Burst(p);
        assert d'.counts[k] == x - 1;
      }
    }
  }

  lemma TraceTick(p: Params, d: Pipe, log: seq<Issued>, rank: nat, n: int, limit: int)
    requires Flows(d, Burst(p)) && Burst(p) >= 1 && Traced(p, d, log, rank, n, limit)
    ensures Traced(p, Ticked(d, Burst(p)), log, rank, n + 1, limit)
  {
    hide FromRead, Present;
    var d' := Ticked(d, Burst(p));
    forall k | 0 <= k < |d'.counts| ensures FromRead(p, log, rank, n + 1, d'.counts[k]) {
      var k0 := if |d'.counts| < |d.counts| then k + 1 else k;
      Sooner(p, log, rank, n, d.counts[k0]);
    }
    if d'.out.Some? { Sooner(p, log, rank, n, if |d'.counts| < |d.counts| then d.counts[0] else d.left - Burst(p)); }
    forall i | 0 <= i < |log| && ReadsRank(log[i], rank) && log[i].time < limit
      ensures Present(p, d', Until(p, log[i].time, n + 1))
    {
      PresentTick(p, d, Until(p, log[i].time, n));
    }
  }

  /** The read on the bus joins the pipe of its rank. */
  lemma TracePush(p: Params, d: Pipe, log: seq<Issued>, c: Packet, rank: nat, n: int, i: nat)
    requires Traced(p, d, log, rank, n, n - 2) && i < |log| && log[i] == Issued(n - 2, c) && ReadsRank(log[i], rank)
             && RL(p) >= 1
    requires forall j :: 0 <= j < |log| && log[j].time == n - 2 ==> j == i
    ensures Traced(p, Pushed(d, c, RL(p)), log, rank, n, n - 1)
  {
    var d' := Pushed(d, c, RL(p));
    assert Until(p, log[i].time, n) == RL(p);
    forall k | 0 <= k < |d'.counts| ensures FromRead(p, log, rank, n, d'.counts[k]) {
      if k < |d.counts| { assert d'.counts[k] == d.counts[k]; }
    }
    assert d'.counts[|d.counts|] == RL(p);
    forall j | 0 <= j < |log| && ReadsRank(log[j], rank) && log[j].time < n - 1
      ensures Present(p, d', Until(p, log[j].time, n))
    {
      if j != i { PresentPush(p, d, c, Until(p, log[j].time, n)); }
    }
  }

  lemma PresentPush(p: Params, d: Pipe, c: Packet, x: int)
    requires Present(p, d, x)
    ensures Present(p, Pushed(d, c, RL(p)), x)
  {
    if x > 0 {
      var k :| 0 <= k < |d.counts| && d.counts[k] == x;
      assert Pushed(d, c, RL(p)).counts[k] == x;
    }
  }

  lemma TraceKept(p: Params, d: Pipe, log: seq<Issued>, rank: nat, n: int, limit: int, e: Issued)
    requires Traced(p, d, log, rank, n, limit) && e.time >= limit
    ensures Traced(p, d, log + [e], rank, n, limit)
  {
    hide Present;
    var log' := log + [e];
    forall x | FromRead(p, log, rank, n, x) ensures FromRead(p, log', rank, n, x) {
      var i :| 0 <= i < |log| && ReadsRank(log[i], rank) && Until(p, log[i].time, n) == x;
      assert log'[i] == log[i];
    }
    forall i | 0 <= i < |log'| && ReadsRank(log'[i], rank) && log'[i].time < limit
      ensures Present(p, d, Until(p, log'[i].time, n))
    {
      assert log'[i] == log[i];
    }
  }

  /** Every command popped in the last cycle is on the bus. */
  ghost predicate OnBus(log: seq<Issued>, bus: Option<Packet>, now: int) {
    && (forall i :: 0 <= i < |log| && log[i].time == now - 1 ==> i == |log| - 1 && bus == Some(log[i].cmd))
    && (forall i :: 0 <= i < |log| ==> log[i].time < now)
    && BusLogged(log, bus, now)
  }

  ghost predicate TracesOk(p: Params, m: Mem) {
    && |m.data.back| == p.ranks && OnBus(m.past.log, m.rows.bus, m.now)
    && forall r: nat :: r < p.ranks ==> Traced(p, m.data.back[r], m.past.log, r, m.now, m.now - 1)
  }

  lemma PipeFlows(d: Pipe, hold: int, delay: int, age: Option<int>)
    requires PipeOk(d, hold, delay, age)
    ensures Flows(d, hold)
  {
  }

  lemma MoveTraces(p: Params, m: Mem, r: nat)
    requires Sane(p) && TracesOk(p, m) && ReadPipesOk(p, m.data.back, m.past.log, m.rows.bus, m.now) && r < p.ranks
    ensures Traced(p, Move(p, m.data, m.rows.bus).back[r], m.past.log, r, m.now + 1, m.now)
  {
    hide Traced, Flows, Ticked, Pushed, PipeOk, LastRead;
    var d, log, bus, n := m.data.back[r], m.past.log, m.rows.bus, m.now;
    PipeFlows(d, Burst(p), RL(p), Since(LastRead(Arrived(log, bus), r), n - 2));
    TraceTick(p, d, log, r, n, n - 1);
    if bus.Some? && ReadsRank(log[|log| - 1], r) {
      TracePush(p, Ticked(d, Burst(p)), log, bus.value, r, n + 1, |log| - 1);
    } else {
      LaterLimit(p, Ticked(d, Burst(p)), log, r, n + 1, n - 1);
    }
  }

  lemma LaterLimit(p: Params, d: Pipe, log: seq<Issued>, rank: nat, n: int, limit: int)
    requires Traced(p, d, log, rank, n, limit)
    requires forall i :: 0 <= i < |log| && log[i].time == limit ==> !ReadsRank(log[i], rank)
    ensures Traced(p, d, log, rank, n, limit + 1)
  {
    hide Present, FromRead;
  }

  lemma CycleTraces(p: Params, m: Mem, refresh: Option<nat>, pick: Pick)
    requires Sane(p) && Placed(p) && CycleAllowed(p, m, refresh, pick) && TracesOk(p, m)
    requires ReadPipesOk(p, m.data.back, m.past.log, m.rows.bus, m.now)
    ensures TracesOk(p, Cycle(p, m, refresh, pick))
  {
    hide Sane, Placed, CycleAllowed, Cycle, CommandOf, Traced, PipeOk, LastRead, Ticked, Pushed;
    var m' := Cycle(p, m, refresh, pick);
    CycleBack(p, m, refresh, pick);
    var c := CommandOf(p, m, refresh, pick);
    forall r: nat | r < p.ranks ensures Traced(p, m'.data.back[r], m'.past.log, r, m'.now, m'.now - 1) {
      MoveTraces(p, m, r);
      if c.Some? { TraceKept(p, m'.data.back[r], m.past.log, r, m'.now, m.now, Issued(m.now, c.value)); }
    }
  }

  /** Two ranks drive the data bus at the same time. */
  ghost predicate ReadsOverlap(back: seq<Pipe>) {
    exists r, s :: 0 <= r < s < |back| && back[r].out.Some? && back[s].out.Some?
  }

  /** The read whose data a rank has on the bus. */
  lemma BusRead(p: Params, m: Mem, r: nat) returns (i: nat)
    requires TracesOk(p, m) && ReadPipesOk(p, m.data.back, m.past.log, m.rows.bus, m.now)
    requires r < p.ranks && m.data.back[r].out.Some?
    ensures i < |m.past.log| && ReadsRank(m.past.log[i], r)
    ensures 0 <= m.now - m.past.log[i].time - 2 - RL(p) < Burst(p)
  {
    hide LastRead;
    var log, d, n := m.past.log, m.data.back[r], m.now;
    assert Traced(p, d, log, r, n, n - 1);
    var k :| 0 <= k < |log| && ReadsRank(log[k], r) && Until(p, log[k].time, n) == d.left - Burst(p);
    PipeFlows(d, Burst(p), RL(p), Since(LastRead(Arrived(log, m.rows.bus), r), n - 2));
    i := k;
  }

  /** Reads a burst apart never overlap. */
  lemma ApartNoOverlap(p: Params, m: Mem)
    requires TracesOk(p, m) && Apart(false, p, m.past.log) && ReadPipesOk(p, m.data.back, m.past.log, m.rows.bus, m.now)
    ensures !ReadsOverlap(m.data.back)
  {
    hide LastRead, Traced, PipeOk, Apart;
    if ReadsOverlap(m.data.back) {
      var r, s :| 0 <= r < s < |m.data.back| && m.data.back[r].out.Some? && m.data.back[s].out.Some?;
      var i := BusRead(p, m, r);
      var j := BusRead(p, m, s);
      NotTogether(p, m.past.log, i, j);
      assert false;
    }
  }

  lemma NotTogether(p: Params, log: seq<Issued>, i: nat, j: nat)
    requires Apart(false, p, log) && i < |log| && j < |log| && i != j && IsRead(log[i].cmd.kind)
             && IsRead(log[j].cmd.kind)
    ensures log[i].time - log[j].time >= Burst(p) || log[j].time - log[i].time >= Burst(p)
  {
  }

  /** Two reads of two ranks less than a burst apart overlap when the data of the second is due. */
  lemma CloseReadsOverlap(p: Params, m: Mem, i: nat, j: nat)
    requires TracesOk(p, m) && i < |m.past.log| && j < |m.past.log| && RL(p) >= 0 && Burst(p) >= 1
    requires var c, d := m.past.log[i].cmd, m.past.log[j].cmd;
             IsRead(c.kind) && IsRead(d.kind) && c.at.rank < p.ranks && d.at.rank < p.ranks && c.at.rank != d.at.rank
    requires m.past.log[i].time <= m.past.log[j].time < m.past.log[i].time + Burst(p)
    requires m.now == m.past.log[j].time + 2 + RL(p)
    ensures ReadsOverlap(m.data.back)
  {
    var log, back := m.past.log, m.data.back;
    var r, s := log[i].cmd.at.rank, log[j].cmd.at.rank;
    assert Present(p, back[r], Until(p, log[i].time, m.now));
    assert Present(p, back[s], Until(p, log[j].time, m.now));
    assert back[if r < s then r else s].out.Some? && back[if r < s then s else r].out.Some?;
  }
}
