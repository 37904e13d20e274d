/** The data buses: a rank never loses read data, and write data never collides. */
module DramData {
  import opened Basics
  import opened DramBanks
  import opened DramQueues
  import opened DramScheduling
  import opened DramSchedulerSteps
  import opened DramPipes
  import opened DramRuns
  import opened DramSafety
  import opened DramSpacing

  // Read data.

  predicate ReadsRank(e: Issued, rank: nat) { IsRead(e.cmd.kind) && e.cmd.at.rank == rank }

  /** When a rank was last read, among the commands popped. */
  function LastRead(log: seq<Issued>, rank: nat): (r: Option<int>)
    ensures r.Some? ==> exists i :: 0 <= i < |log| && ReadsRank(log[i], rank) && log[i].time == r.value
  {
    if log == [] then None
    else if ReadsRank(log[|log| - 1], rank) then assert ReadsRank(log[|log| - 1], rank); Some(log[|log| - 1].time)
    else LastRead(log[..|log| - 1], rank)
  }

  /** The commands that have reached their ranks: all but the one on the bus. */
  function Arrived(log: seq<Issued>, bus: Option<Packet>): seq<Issued> {
    if bus.Some? && log != [] then log[..|log| - 1] else log
  }

  /** The command on the bus was popped in the last cycle. */
  ghost predicate BusLogged(log: seq<Issued>, bus: Option<Packet>, now: int) {
    bus.Some? ==> log != [] && log[|log| - 1] == Issued(now - 1, bus.value)
  }

  ghost predicate PipeOk(d: Pipe, hold: int, delay: int, age: Option<int>) {
    match age
    case None => d == EmptyPipe
    case Some(n) => Flows(d, hold) && Aged(d, hold, delay, n)
  }

  function Since(t: Option<int>, now: int): Option<int> { if t.Some? then Some(now - t.value) else None }

  ghost predicate ReadPipesOk(p: Params, back: seq<Pipe>, log: seq<Issued>, bus: Option<Packet>, now: int) {
    && |back| == p.ranks && BusLogged(log, bus, now)
    && forall r: nat :: r < p.ranks ==> PipeOk(back[r], Burst(p), RL(p), Since(LastRead(Arrived(log, bus), r), now - 2))
  }

  lemma PipeTick(d: Pipe, hold: int, delay: int, t: Option<int>, now: int)
    requires PipeOk(d, hold, delay, Since(t, now)) && hold >= 1
    ensures PipeOk(Ticked(d, hold), hold, delay, Since(t, now + 1)) && !Collides(d)
  {
    hide Ticked, Flows, Aged;
    if t.Some? {
      FlowsTick(d, hold, delay, now - t.value);
      FlowsNoCollision(d, hold);
    } else {
      EmptyTick(hold);
    }
  }

  lemma EmptyTick(hold: int)
    ensures Ticked(EmptyPipe, hold) == EmptyPipe && !Collides(EmptyPipe)
  {
  }

  lemma PipePush(d: Pipe, c: Packet, hold: int, delay: int, t: Option<int>, now: int)
    requires PipeOk(d, hold, delay, Since(t, now)) && hold >= 1 && delay >= 1 && (t.Some? ==> now - t.value >= hold)
    ensures PipeOk(Pushed(d, c, delay), hold, delay, Some(0))
  {
    if t.Some? { FlowsPush(d, c, hold, delay, now - t.value); }
  }

  lemma RankReadsApart(p: Params, c: Packet, d: Packet)
    requires Sane(p) && IsRead(c.kind) && IsRead(d.kind) && c.at.rank == d.at.rank
    ensures Gap(p, c, d) >= Burst(p)
  {
  }

  /** Two reads of a rank are at least a burst apart, so its data bus is free when it is needed. */
  lemma ReadsApart(p: Params, log: seq<Issued>, c: Packet, now: int)
    requires Sane(p) && Spaced(p, log) && log != [] && log[|log| - 1] == Issued(now - 1, c) && IsRead(c.kind)
    ensures var t := LastRead(log[..|log| - 1], c.at.rank); t.Some? ==> now - 1 - t.value >= Burst(p)
  {
    hide Gap, Sane, LastRead;
    var n := |log| - 1;
    var t := LastRead(log[..n], c.at.rank);
    if t.Some? {
      var i :| 0 <= i < n && ReadsRank(log[..n][i], c.at.rank) && log[..n][i].time == t.value;
      assert log[..n][i] == log[i];
      RankReadsApart(p, log[i].cmd, log[n].cmd);
    }
  }

  lemma {:induction false} LastReadSnoc(log: seq<Issued>, e: Issued, rank: nat)
    ensures LastRead(log + [e], rank) == if ReadsRank(e, rank) then Some(e.time) else LastRead(log, rank)
  {
    assert (log + [e])[..|log|] == log;
  }

  lemma ArrivedNext(log: seq<Issued>, bus: Option<Packet>, c: Option<Packet>, now: int)
    requires BusLogged(log, bus, now)
    ensures var log' := if c.Some? then log + [Issued(now, c.value)] else log;
            Arrived(log', c) == log && BusLogged(log', c, now + 1)
  {
    if c.Some? { assert (log + [Issued(now, c.value)])[..|log|] == log; }
  }

  lemma ReadPipesNext(p: Params, d: Data, log: seq<Issued>, bus: Option<Packet>, now: int)
    requires Sane(p) && Spaced(p, log) && ReadPipesOk(p, d.back, log, bus, now)
    ensures var back' := Move(p, d, bus).back;
            |back'| == p.ranks && forall r: nat ::
                r < p.ranks ==> PipeOk(back'[r], Burst(p), RL(p), Since(LastRead(log, r), now - 1))
    ensures forall r: nat :: r < p.ranks ==> !Collides(d.back[r])
  {
    hide PipeOk, Spaced, Ticked, Pushed, LastRead, Collides, Gap;
    var back' := Move(p, d, bus).back;
    forall r: nat | r < p.ranks
      ensures PipeOk(back'[r], Burst(p), RL(p), Since(LastRead(log, r), now - 1)) && !Collides(d.back[r])
    {
      var log0 := Arrived(log, bus);
      var t := LastRead(log0, r);
      PipeTick(d.back[r], Burst(p), RL(p), t, now - 2);
      if bus.Some? {
        assert log == log0 + [log[|log| - 1]];
        LastReadSnoc(log0, log[|log| - 1], r);
        if IsRead(bus.value.kind) && bus.value.at.rank == r {
          ReadsApart(p, log, bus.value, now);
          PipePush(Ticked(d.back[r], Burst(p)), bus.value, Burst(p), RL(p), t, now - 1);
        }
      }
    }
  }

  lemma CycleReads(p: Params, m: Mem, refresh: Option<nat>, pick: Pick)
    requires Sane(p) && Placed(p) && CycleAllowed(p, m, refresh, pick)
    requires Spaced(p, m.past.log) && ReadPipesOk(p, m.data.back, m.past.log, m.rows.bus, m.now)
    ensures var m' := Cycle(p, m, refresh, pick); ReadPipesOk(p, m'.data.back, m'.past.log, m'.rows.bus, m'.now)
  {
    hide PipeOk, Spaced, LastRead, CycleAllowed, Command, Picked, Split, Move, Prepared, Sane, Placed;
    var c := CommandOf(p, m, refresh, pick);
    ReadPipesNext(p, m.data, m.past.log, m.rows.bus, m.now);
    ArrivedNext(m.past.log, m.rows.bus, c, m.now);
    CycleBack(p, m, refresh, pick);
  }

  ghost function CommandOf(p: Params, m: Mem, refresh: Option<nat>, pick: Pick): Option<Packet>
    requires CycleAllowed(p, m, refresh, pick)
  {
    Command(p, Prepared(m.sched, refresh), pick)
  }

  lemma CycleBack(p: Params, m: Mem, refresh: Option<nat>, pick: Pick)
    requires Placed(p) && CycleAllowed(p, m, refresh, pick)
    ensures var m' := Cycle(p, m, refresh, pick);
            && m'.data.back == Move(p, m.data, m.rows.bus).back && m'.rows.bus == CommandOf(p, m, refresh, pick)
            && m'.past == IssuePast(m.past, CommandOf(p, m, refresh, pick), m.now) && m'.now == m.now + 1
            && m'.data.writes == IssueData(p, Move(p, m.data, m.rows.bus), CommandOf(p, m, refresh, pick)).writes
  {
    hide CycleAllowed, Command, Picked, Prepared, Placed, TickAll, IssueAll, ReceiveAll, ReceiveRead, TickPipes,
      Eligible, Prior, Enqueued;
  }

  // Data of several ranks.

  /** A row opened right after a column command to another rank is used no earlier than the bus is free. */
  predicate OpensLate(p: Params) { Max(2, 1 + p.tRCD - p.AL) >= Burst(p) }

  ghost predicate OneRank(p: Params) { forall a: nat, b: nat :: p.place(a).rank == p.place(b).rank }

  /**
   The exact condition under which two writes, or two reads, are a burst apart whatever their ranks; with
   less depth no command is ever queued.
   */
  ghost predicate BusWide(p: Params) { OpensLate(p) || OneRank(p) || p.queueDepth < 2 }

  /** Writes, or else reads. */
  predicate IsKind(wr: bool, k: Kind) { if wr then IsWrite(k) else IsRead(k) }

  /** No column of the kind can be popped, from time `from` on, within `hold` cycles of the one at time t. */
  ghost predicate Holds(wr: bool, s: BankState, hold: int, t: int, from: int) {
    s.state == RowActive ==> Max(if wr then s.nextWrite else s.nextRead, from) >= t + hold
  }

  lemma IssueHolds(wr: bool, p: Params, s: BankState, rank: nat, bank: nat, c: Packet, now: int, t: int)
    requires Sane(p) && OpensLate(p) && InPolicy(p, c.kind) && (Concerns(c, rank, bank) ==> BankReady(p, s, c, now))
    requires (t < now && Holds(wr, s, Burst(p), t, now)) || (t == now && IsKind(wr, c.kind))
    ensures Holds(wr, IssueBank(p, s, rank, bank, c, now), Burst(p), t, now + 1)
  {
  }

  lemma TickHolds(wr: bool, p: Params, s: BankState, now: int, t: int, from: int)
    requires TimerOk(p, s, now) && Holds(wr, s, Burst(p), t, from)
    ensures Holds(wr, TickBank(p, s), Burst(p), t, from)
  {
  }

  ghost predicate Held(wr: bool, p: Params, log: seq<Issued>, banks: Banks, from: int)
    requires GridOf(p, banks)
  {
    forall i, r: nat, b: nat :: 0 <= i < |log| && IsKind(wr, log[i].cmd.kind) && InRange(p, r, b) ==>
      Holds(wr, banks[r][b], Burst(p), log[i].time, from)
  }

  /** They are at least a burst apart, whatever their ranks. */
  ghost predicate Apart(wr: bool, p: Params, log: seq<Issued>) {
    forall i, j :: 0 <= i < j < |log| && IsKind(wr, log[i].cmd.kind) && IsKind(wr, log[j].cmd.kind) ==>
      log[j].time - log[i].time >= Burst(p)
  }

  lemma IssuedHeld(wr: bool, p: Params, log: seq<Issued>, banks: Banks, c: Packet, now: int)
    requires Sane(p) && OpensLate(p) && GridOf(p, banks) && LogOk(p, log, now) && ReadyCommand(p, banks, c, now)
    requires Held(wr, p, log, banks, now)
    ensures Held(wr, p, log + [Issued(now, c)], IssueAll(p, banks, c, now), now + 1)
  {
    hide Sane, IssueBank, Holds, BankReady, OpensLate;
    var log', banks' := log + [Issued(now, c)], IssueAll(p, banks, c, now);
    forall i, r: nat, b: nat | 0 <= i < |log'| && IsKind(wr, log'[i].cmd.kind) && InRange(p, r, b)
      ensures Holds(wr, banks'[r][b], Burst(p), log'[i].time, now + 1)
    {
      IssueHolds(wr, p, banks[r][b], r, b, c, now, log'[i].time);
    }
  }

  lemma TickedHeld(wr: bool, p: Params, log: seq<Issued>, banks: Banks, now: int, from: int)
    requires GridOf(p, banks) && TimersOk(p, banks, now) && Held(wr, p, log, banks, from)
    ensures GridOf(p, TickAll(p, banks)) && Held(wr, p, log, TickAll(p, banks), from)
  {
    hide TickBank, Holds, TimerOk;
    var banks' := TickAll(p, banks);
    forall i, r: nat, b: nat | 0 <= i < |log| && IsKind(wr, log[i].cmd.kind) && InRange(p, r, b)
      ensures Holds(wr, banks'[r][b], Burst(p), log[i].time, from)
    {
      TickHolds(wr, p, banks[r][b], now, log[i].time, from);
    }
  }

  lemma LaterHeld(wr: bool, p: Params, log: seq<Issued>, banks: Banks, from: int)
    requires GridOf(p, banks) && Held(wr, p, log, banks, from)
    ensures Held(wr, p, log, banks, from + 1)
  {
    forall i, r: nat, b: nat | 0 <= i < |log| && IsKind(wr, log[i].cmd.kind) && InRange(p, r, b)
      ensures Holds(wr, banks[r][b], Burst(p), log[i].time, from + 1)
    {
      assert Holds(wr, banks[r][b], Burst(p), log[i].time, from);
    }
  }

  // Three reasons why a column command comes a burst after the earlier ones of its kind.

  ghost predicate ColumnsPlaced(p: Params, log: seq<Issued>) {
    forall i :: 0 <= i < |log| && IsColumn(log[i].cmd.kind) ==> log[i].cmd.at == p.place(log[i].cmd.addr)
  }

  ghost predicate Unused(p: Params, st: Sched, log: seq<Issued>) {
    && Shaped(p, st) && (forall r: nat, b: nat :: InRange(p, r, b) ==> QueueAt(p, st, r, b) == [])
    && (forall i :: 0 <= i < |log| ==> !IsColumn(log[i].cmd.kind))
  }

  lemma HeldApart(wr: bool, p: Params, log: seq<Issued>, banks: Banks, c: Packet, now: int)
    requires GridOf(p, banks) && ReadyCommand(p, banks, c, now) && Held(wr, p, log, banks, now) && Apart(wr, p, log)
    ensures Apart(wr, p, log + [Issued(now, c)])
  {
    hide BankReady, Holds;
    forall i | 0 <= i < |log| && IsKind(wr, log[i].cmd.kind) && IsKind(wr, c.kind)
      ensures now - log[i].time >= Burst(p)
    {
      ColumnWaits(wr, p, banks[c.at.rank][c.at.bank], c, now, log[i].time);
    }
  }

  lemma ColumnWaits(wr: bool, p: Params, s: BankState, c: Packet, now: int, t: int)
    requires IsKind(wr, c.kind) && BankReady(p, s, c, now) && Holds(wr, s, Burst(p), t, now)
    ensures now - t >= Burst(p)
  {
  }

  /** Two writes, or two reads, of one rank are a burst apart. */
  lemma RankColumnsApart(wr: bool, p: Params, c: Packet, d: Packet)
    requires Sane(p) && IsKind(wr, c.kind) && IsKind(wr, d.kind) && c.at.rank == d.at.rank
    ensures Gap(p, c, d) >= Burst(p)
  {
  }

  lemma OneRankApart(wr: bool, p: Params, log: seq<Issued>)
    requires Sane(p) && OneRank(p) && Spaced(p, log) && ColumnsPlaced(p, log)
    ensures Apart(wr, p, log)
  {
    hide Gap, Sane;
    forall i, j | 0 <= i < j < |log| && IsKind(wr, log[i].cmd.kind) && IsKind(wr, log[j].cmd.kind)
      ensures log[j].time - log[i].time >= Burst(p)
    {
      assert p.place(log[i].cmd.addr).rank == p.place(log[j].cmd.addr).rank;
      RankColumnsApart(wr, p, log[i].cmd, log[j].cmd);
    }
  }

  /** A column command comes from the queue of its place. */
  lemma PoppedPlaced(p: Params, m: Mem, refresh: Option<nat>, pick: Pick)
    requires Sane(p) && Safe(p, m.rows, m.sched, m.now) && CycleAllowed(p, m, refresh, pick)
    ensures var c := CommandOf(p, m, refresh, pick);
            c.Some? && IsColumn(c.value.kind) ==> c.value.at == p.place(c.value.addr)
  {
    hide SchedOk, Sane, Eligible, Prior, TimersOk, TickAll, ReceiveAll, Prepared, Wellformed, QueueOk, Safe, Picked,
      ReadyCommand, IssueAll;
    PoppedReady(p, m, refresh, pick);
    if pick.Take? {
      QueuePlaced(p, Prepared(m.sched, refresh), TickAll(p, m.rows.banks), pick.rank, pick.bank, pick.i);
    }
  }

  lemma QueuePlaced(p: Params, st: Sched, banks: Banks, rank: nat, bank: nat, i: nat)
    requires SchedOk(p, st, banks) && InRange(p, rank, bank) && i < |QueueAt(p, st, rank, bank)|
    ensures var c := QueueAt(p, st, rank, bank)[i]; c.at == p.place(c.addr)
  {
    hide SchedOk, CountersOk, NotStranded, Paired;
    SchedShaped(p, st, banks);
    QueueIsOk(p, st, banks, rank, bank);
    assert HomedPacket(p, QueueAt(p, st, rank, bank)[i], rank, QueueIndex(p, bank));
  }

  /** In queues too short for two commands nothing is ever put. */
  lemma UnusedStays(p: Params, m: Mem, refresh: Option<nat>, pick: Pick)
    requires Placed(p) && p.queueDepth < 2 && CycleAllowed(p, m, refresh, pick) && Unused(p, m.sched, m.past.log)
    ensures var m' := Cycle(p, m, refresh, pick); Unused(p, m'.sched, m'.past.log)
  {
    hide Eligible, Prior, TickAll, ReceiveAll, TickWindow, Wellformed, Move, IssueData, IssueRows, Answered;
    var st := Prepared(m.sched, refresh);
    forall r: nat, b: nat | InRange(p, r, b)
      ensures QueueAt(p, st, r, b) == []
    {
      assert QueueAt(p, m.sched, r, b) == [];
    }
    assert !pick.Take?;
    var st1 := Picked(p, st, pick);
    assert forall r: nat, b: nat :: InRange(p, r, b) ==> QueueAt(p, st1, r, b) == QueueAt(p, st, r, b);
    assert FirstWithRoom(p, st1, m.waiting, 0) == |m.waiting|;
  }

  function LastWrite(log: seq<Issued>): (r: Option<int>)
    ensures r.Some? ==> exists i :: 0 <= i < |log| && IsWrite(log[i].cmd.kind) && log[i].time == r.value
  {
    if log == [] then None
    else if IsWrite(log[|log| - 1].cmd.kind) then assert IsWrite(log[|log| - 1].cmd.kind); Some(log[|log| - 1].time)
    else LastWrite(log[..|log| - 1])
  }

  lemma LastWriteSnoc(log: seq<Issued>, e: Issued)
    ensures LastWrite(log + [e]) == if IsWrite(e.cmd.kind) then Some(e.time) else LastWrite(log)
  {
    assert (log + [e])[..|log|] == log;
  }

  ghost predicate BusOk(p: Params, m: Mem) {
    var banks, log := TickAll(p, m.rows.banks), m.past.log;
    && GridOf(p, banks) && LogOk(p, log, m.now) && ColumnsPlaced(p, log)
    && (forall wr :: Apart(wr, p, log) && (OpensLate(p) ==> Held(wr, p, log, banks, m.now)))
    && (p.queueDepth < 2 ==> Unused(p, m.sched, log))
    && PipeOk(m.data.writes, Burst(p), WL(p), Since(LastWrite(log), m.now - 1))
  }

  lemma WritePipeNext(p: Params, writes: Pipe, log: seq<Issued>, c: Option<Packet>, now: int)
    requires Sane(p) && PipeOk(writes, Burst(p), WL(p), Since(LastWrite(log), now - 1))
    requires c.Some? ==> Apart(true, p, log + [Issued(now, c.value)])
    ensures !Collides(writes)
    ensures var log' := if c.Some? then log + [Issued(now, c.value)] else log;
            var w1 := Ticked(writes, Burst(p));
            PipeOk(if c.Some? && IsWrite(c.value.kind) then Pushed(w1, c.value, WL(p)) else w1, Burst(p), WL(p),
                Since(LastWrite(log'), now))
  {
    hide PipeOk, Ticked, Pushed, LastWrite, Collides;
    var t := LastWrite(log);
    PipeTick(writes, Burst(p), WL(p), t, now - 1);
    if c.Some? {
      var log' := log + [Issued(now, c.value)];
      LastWriteSnoc(log, Issued(now, c.value));
      if IsWrite(c.value.kind) {
        if t.Some? {
          var i :| 0 <= i < |log| && IsWrite(log[i].cmd.kind) && log[i].time == t.value;
          assert log'[i] == log[i] && log'[|log|] == Issued(now, c.value);
        }
        PipePush(Ticked(writes, Burst(p)), c.value, Burst(p), WL(p), t, now);
      }
    }
  }

  lemma CycleHeld(wr: bool, p: Params, m: Mem, refresh: Option<nat>, pick: Pick)
    requires Sane(p) && OpensLate(p) && Placed(p) && Safe(p, m.rows, m.sched, m.now)
             && CycleAllowed(p, m, refresh, pick)
    requires GridOf(p, TickAll(p, m.rows.banks)) && LogOk(p, m.past.log, m.now) && Apart(wr, p, m.past.log)
    requires Held(wr, p, m.past.log, TickAll(p, m.rows.banks), m.now)
    ensures var m' := Cycle(p, m, refresh, pick);
            && GridOf(p, TickAll(p, m'.rows.banks)) && Held(wr, p, m'.past.log, TickAll(p, m'.rows.banks), m'.now)
            && Apart(wr, p, m'.past.log)
  {
    hide Safe, SchedOk, Sane, Picked, Split, ReceiveAll, Prepared, TimersOk, Placed, CycleAllowed, GridOf, TickAll,
      IssueAll, LogOk, Command, Held, Apart, OpensLate, ReadyCommand;
    PoppedReady(p, m, refresh, pick);
    CycleBanks(p, m, refresh, pick);
    CycleBack(p, m, refresh, pick);
    var banks, log, now := TickAll(p, m.rows.banks), m.past.log, m.now;
    var c := CommandOf(p, m, refresh, pick);
    if c.Some? {
      HeldApart(wr, p, log, banks, c.value, now);
      IssuedHeld(wr, p, log, banks, c.value, now);
      TickedHeld(wr, p, log + [Issued(now, c.value)], IssueAll(p, banks, c.value, now), now, now + 1);
    } else {
      LaterHeld(wr, p, log, banks, now);
      TickedHeld(wr, p, log, banks, now, now + 1);
    }
  }

  lemma CycleBanks(p: Params, m: Mem, refresh: Option<nat>, pick: Pick)
    requires Placed(p) && CycleAllowed(p, m, refresh, pick)
    ensures Cycle(p, m, refresh, pick).rows == IssueRows(p, Settle(p, m.rows, m.now), CommandOf(p, m, refresh, pick),
            m.now)
  {
    hide CycleAllowed, Command, Picked, Prepared, Placed, TickAll, IssueAll, ReceiveAll, ReceiveRead, TickPipes,
      Eligible, Prior, Enqueued;
  }

  lemma CycleApart(wr: bool, p: Params, m: Mem, refresh: Option<nat>, pick: Pick)
    requires Sane(p) && BusWide(p) && Placed(p) && Safe(p, m.rows, m.sched, m.now) && CycleAllowed(p, m, refresh, pick)
    requires BusOk(p, m) && Spaced(p, Cycle(p, m, refresh, pick).past.log)
    requires ColumnsPlaced(p, Cycle(p, m, refresh, pick).past.log)
    ensures Apart(wr, p, Cycle(p, m, refresh, pick).past.log)
  {
    hide Safe, Sane, Placed, CycleAllowed, GridOf, LogOk, Held, Apart, OpensLate, OneRank, ColumnsPlaced, PipeOk,
      LastWrite, Cycle, TickAll, Spaced;
    if OpensLate(p) {
      CycleHeld(wr, p, m, refresh, pick);
    } else if OneRank(p) {
      OneRankApart(wr, p, Cycle(p, m, refresh, pick).past.log);
    } else {
      UnusedStays(p, m, refresh, pick);
      NoneApart(wr, p, Cycle(p, m, refresh, pick).past.log);
    }
  }

  lemma NoneApart(wr: bool, p: Params, log: seq<Issued>)
    requires forall i :: 0 <= i < |log| ==> !IsColumn(log[i].cmd.kind)
    ensures Apart(wr, p, log)
  {
  }

  lemma CyclePlaced(p: Params, m: Mem, refresh: Option<nat>, pick: Pick)
    requires Sane(p) && Placed(p) && Safe(p, m.rows, m.sched, m.now) && CycleAllowed(p, m, refresh, pick)
    requires ColumnsPlaced(p, m.past.log)
    ensures ColumnsPlaced(p, Cycle(p, m, refresh, pick).past.log)
  {
    hide Safe, Sane, Placed, CycleAllowed, Cycle, CommandOf;
    PoppedPlaced(p, m, refresh, pick);
    CycleBack(p, m, refresh, pick);
  }

  lemma CycleWrites(p: Params, m: Mem, refresh: Option<nat>, pick: Pick)
    requires Sane(p) && BusWide(p) && Placed(p) && Safe(p, m.rows, m.sched, m.now) && CycleAllowed(p, m, refresh, pick)
    requires BusOk(p, m)
    requires var m' := Cycle(p, m, refresh, pick); SpacingOk(p, m'.rows, m'.past.log, m'.now)
    ensures BusOk(p, Cycle(p, m, refresh, pick)) && !Collides(m.data.writes)
  {
    hide Safe, Sane, Placed, CycleAllowed, GridOf, LogOk, Held, Apart, OpensLate, OneRank, ColumnsPlaced, PipeOk,
      LastWrite, Cycle, TickAll, Spaced, Horizons, Ticked, Pushed, Collides, CommandOf, Unused, BusWide;
    var m' := Cycle(p, m, refresh, pick);
    CyclePlaced(p, m, refresh, pick);
    forall wr
      ensures Apart(wr, p, m'.past.log) && (OpensLate(p) ==>
              Held(wr, p, m'.past.log, TickAll(p, m'.rows.banks), m'.now))
    {
      CycleApart(wr, p, m, refresh, pick);
      if OpensLate(p) { CycleHeld(wr, p, m, refresh, pick); }
    }
    if p.queueDepth < 2 { UnusedStays(p, m, refresh, pick); }
    CycleBack(p, m, refresh, pick);
    WritePipeNext(p, m.data.writes, m.past.log, CommandOf(p, m, refresh, pick), m.now);
  }
}
