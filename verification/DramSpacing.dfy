/**
 The distances between commands.  `Gap` is the table of distances; the horizons the controller keeps
 for each bank are shown to enforce it over whole runs.
 */
module DramSpacing {
  import opened Basics
  import opened DramBanks
  import opened DramQueues
  import opened DramScheduling
  import opened DramSchedulerSteps
  import opened DramRuns
  import opened DramSafety

  predicate SameRank(c: Packet, rank: nat) { c.at.rank == rank }
  predicate SameBank(c: Packet, rank: nat, bank: nat) { c.at.rank == rank && c.at.bank == bank }

  /** How long after c a bank may be activated, or its rank refreshed. */
  function ActivateGap(p: Params, c: Packet, rank: nat, bank: nat): int {
    match c.kind
    case Activate => if SameBank(c, rank, bank) then p.tRC else if SameRank(c, rank) then p.tRRD else 0
    case Precharge => if SameBank(c, rank, bank) then p.tRP else 0
    case ReadP => if SameBank(c, rank, bank) then ReadAutoPre(p) else 0
    case WriteP => if SameBank(c, rank, bank) then WriteAutoPre(p) else 0
    case Refresh => if SameRank(c, rank) then p.tRFC else 0
    case _ => 0
  }

  function PrechargeGap(p: Params, c: Packet, rank: nat, bank: nat): int {
    match c.kind
    case Activate => if SameBank(c, rank, bank) then p.tRAS else 0
    case Read => if SameBank(c, rank, bank) then ReadToPre(p) else 0
    case Write => if SameBank(c, rank, bank) then WriteToPre(p) else 0
    case _ => 0
  }

  /**
   A bank that precharges itself gives up its column horizons, but is not opened again before its own
   recovery: a write of the bank does that to its read horizon, and a read to its write horizon.
   */
  function ReadGap(p: Params, c: Packet, rank: nat, bank: nat): int {
    match c.kind
    case Activate => if SameBank(c, rank, bank) then p.tRCD - p.AL else 0
    case Read => if SameRank(c, rank) then ColumnGap(p) else 0
    case ReadP =>
      if SameBank(c, rank, bank) then ReadAutoPre(p) else if SameRank(c, rank) then Min(ColumnGap(p), WriteAutoPre(p))
          else 0
    case Write => if SameRank(c, rank) then WriteToReadBank(p) else 0
    case WriteP =>
      if SameBank(c, rank, bank) then WriteAutoPre(p)
      else if SameRank(c, rank) then Min(WriteToReadBank(p), WriteAutoPre(p)) else 0
    case _ => 0
  }

  function WriteGap(p: Params, c: Packet, rank: nat, bank: nat): int {
    match c.kind
    case Activate => if SameBank(c, rank, bank) then p.tRCD - p.AL else 0
    case Read => if SameRank(c, rank) then ReadToWrite(p) else 0
    case ReadP =>
      if SameBank(c, rank, bank) then ReadAutoPre(p) else if SameRank(c, rank) then Min(ReadToWrite(p), ReadAutoPre(p))
          else 0
    case Write => if SameRank(c, rank) then ColumnGap(p) else 0
    case WriteP =>
      if SameBank(c, rank, bank) then WriteAutoPre(p) else if SameRank(c, rank) then Min(ColumnGap(p), ReadAutoPre(p))
          else 0
    case _ => 0
  }

  /** The least distance from c to a later d. */
  function Gap(p: Params, c: Packet, d: Packet): int {
    match d.kind
    case Activate => ActivateGap(p, c, d.at.rank, d.at.bank)
    case Refresh => ActivateGap(p, c, d.at.rank, c.at.bank)
    case Precharge => PrechargeGap(p, c, d.at.rank, d.at.bank)
    case Read => ReadGap(p, c, d.at.rank, d.at.bank)
    case ReadP => ReadGap(p, c, d.at.rank, d.at.bank)
    case Write => WriteGap(p, c, d.at.rank, d.at.bank)
    case WriteP => WriteGap(p, c, d.at.rank, d.at.bank)
  }

  /** The horizons of a bank respect a command popped at time t. */
  ghost predicate Respects(p: Params, s: BankState, rank: nat, bank: nat, c: Packet, t: int) {
    && (ActivateGap(p, c, rank, bank) > 0 ==> s.nextActivate >= t + ActivateGap(p, c, rank, bank))
    && (PrechargeGap(p, c, rank, bank) > 0 ==> s.nextPrecharge >= t + PrechargeGap(p, c, rank, bank))
    && (p.openPage || c.kind != Activate || (s.state == RowActive && s.countdown == 0) ==>
          && (ReadGap(p, c, rank, bank) > 0 ==> s.nextRead >= t + ReadGap(p, c, rank, bank))
          && (WriteGap(p, c, rank, bank) > 0 ==> s.nextWrite >= t + WriteGap(p, c, rank, bank)))
  }

  lemma ColumnKeeps(p: Params, s: BankState, rank: nat, bank: nat, c: Packet, now: int, e: Packet, t: int)
    requires Sane(p) && InPolicy(p, c.kind) && InPolicy(p, e.kind) && t <= now && IsColumn(c.kind)
    requires Concerns(c, rank, bank) ==> BankReady(p, s, c, now)
    requires Respects(p, s, rank, bank, e, t)
    ensures Respects(p, IssueBank(p, s, rank, bank, c, now), rank, bank, e, t)
  {
  }

  lemma RowKeeps(p: Params, s: BankState, rank: nat, bank: nat, c: Packet, now: int, e: Packet, t: int)
    requires Sane(p) && InPolicy(p, c.kind) && InPolicy(p, e.kind) && t <= now && !IsColumn(c.kind)
    requires Concerns(c, rank, bank) ==> BankReady(p, s, c, now)
    requires Respects(p, s, rank, bank, e, t)
    ensures Respects(p, IssueBank(p, s, rank, bank, c, now), rank, bank, e, t)
  {
  }

  /** A command moves no horizon it matters to below what the earlier ones asked for. */
  lemma IssueKeeps(p: Params, s: BankState, rank: nat, bank: nat, c: Packet, now: int, e: Packet, t: int)
    requires Sane(p) && InPolicy(p, c.kind) && InPolicy(p, e.kind) && t <= now
    requires Concerns(c, rank, bank) ==> BankReady(p, s, c, now)
    requires Respects(p, s, rank, bank, e, t)
    ensures Respects(p, IssueBank(p, s, rank, bank, c, now), rank, bank, e, t)
  {
    hide Respects, IssueBank, BankReady, Sane;
    if IsColumn(c.kind) {
      ColumnKeeps(p, s, rank, bank, c, now, e, t);
    } else {
      RowKeeps(p, s, rank, bank, c, now, e, t);
    }
  }

  lemma IssueSets(p: Params, s: BankState, rank: nat, bank: nat, c: Packet, now: int)
    requires Sane(p) && InPolicy(p, c.kind) && (Concerns(c, rank, bank) ==> BankReady(p, s, c, now))
    ensures Respects(p, IssueBank(p, s, rank, bank, c, now), rank, bank, c, now)
  {
  }

  lemma TickKeeps(p: Params, s: BankState, rank: nat, bank: nat, e: Packet, t: int, now: int)
    requires Respects(p, s, rank, bank, e, t) && TimerOk(p, s, now)
    ensures Respects(p, TickBank(p, s), rank, bank, e, t)
  {
  }

  /** A command that is ready keeps its distance from the earlier ones. */
  lemma ReadyIsSpaced(p: Params, s: BankState, bank: nat, c: Packet, now: int, e: Packet, t: int)
    requires TimerOk(p, s, now) && BankReady(p, s, c, now) && Respects(p, s, c.at.rank, bank, e, t) && t < now
    requires Concerns(c, c.at.rank, bank) && (c.kind == Refresh ==> bank == e.at.bank)
    ensures now >= t + Gap(p, e, c)
  {
  }

  // Over a run.

  ghost predicate LogOk(p: Params, log: seq<Issued>, now: int) {
    forall i ::
      0 <= i < |log| ==>
      log[i].time < now && InRange(p, log[i].cmd.at.rank, log[i].cmd.at.bank) && InPolicy(p, log[i].cmd.kind)
  }

  ghost predicate Horizons(p: Params, log: seq<Issued>, banks: Banks)
    requires GridOf(p, banks)
  {
    forall i, r: nat, b: nat ::
      0 <= i < |log| && InRange(p, r, b) ==> Respects(p, banks[r][b], r, b, log[i].cmd, log[i].time)
  }

  /** Commands are popped one per cycle, and every two of them keep the distance of the table. */
  ghost predicate Spaced(p: Params, log: seq<Issued>) {
    forall i, j :: 0 <= i < j < |log| ==>
      log[j].time > log[i].time && log[j].time >= log[i].time + Gap(p, log[i].cmd, log[j].cmd)
  }

  lemma IssuedSpaced(p: Params, log: seq<Issued>, banks: Banks, c: Packet, now: int)
    requires GridOf(p, banks) && TimersOk(p, banks, now) && LogOk(p, log, now) && Horizons(p, log, banks)
             && Spaced(p, log)
    requires ReadyCommand(p, banks, c, now)
    ensures Spaced(p, log + [Issued(now, c)]) && LogOk(p, log + [Issued(now, c)], now + 1)
  {
    hide Gap, Respects, TimerOk, BankReady;
    forall i | 0 <= i < |log| ensures now >= log[i].time + Gap(p, log[i].cmd, c) {
      var e := log[i].cmd;
      var bank := if c.kind == Refresh then e.at.bank else c.at.bank;
      assert InRange(p, c.at.rank, bank);
      ReadyIsSpaced(p, banks[c.at.rank][bank], bank, c, now, e, log[i].time);
    }
  }

  lemma IssuedHorizons(p: Params, log: seq<Issued>, banks: Banks, c: Packet, now: int)
    requires Sane(p) && GridOf(p, banks) && LogOk(p, log, now) && Horizons(p, log, banks)
             && ReadyCommand(p, banks, c, now)
    ensures Horizons(p, log + [Issued(now, c)], IssueAll(p, banks, c, now))
  {
    hide Sane, Respects, IssueBank, BankReady;
    var log', banks' := log + [Issued(now, c)], IssueAll(p, banks, c, now);
    forall i, r: nat, b: nat | 0 <= i < |log'| && InRange(p, r, b)
      ensures Respects(p, banks'[r][b], r, b, log'[i].cmd, log'[i].time)
    {
      if i < |log| {
        IssueKeeps(p, banks[r][b], r, b, c, now, log[i].cmd, log[i].time);
      } else {
        IssueSets(p, banks[r][b], r, b, c, now);
      }
    }
  }

  lemma TickedHorizons(p: Params, log: seq<Issued>, banks: Banks, now: int)
    requires GridOf(p, banks) && Horizons(p, log, banks) && TimersOk(p, banks, now)
    ensures GridOf(p, TickAll(p, banks)) && Horizons(p, log, TickAll(p, banks))
  {
    hide Respects, TimerOk, TickBank;
    var banks' := TickAll(p, banks);
    forall i, r: nat, b: nat | 0 <= i < |log| && InRange(p, r, b)
      ensures Respects(p, banks'[r][b], r, b, log[i].cmd, log[i].time)
    {
      TickKeeps(p, banks[r][b], r, b, log[i].cmd, log[i].time, now);
    }
  }

  ghost predicate SpacingOk(p: Params, w: Rows, log: seq<Issued>, now: int) {
    GridOf(p, TickAll(p, w.banks)) && LogOk(p, log, now) && Horizons(p, log, TickAll(p, w.banks)) && Spaced(p, log)
  }

  lemma CycleSpacing(p: Params, m: Mem, refresh: Option<nat>, pick: Pick)
    requires Sane(p) && Placed(p) && Safe(p, m.rows, m.sched, m.now) && CycleAllowed(p, m, refresh, pick)
    requires SpacingOk(p, m.rows, m.past.log, m.now)
    ensures var m' := Cycle(p, m, refresh, pick); SpacingOk(p, m'.rows, m'.past.log, m'.now)
  {
    hide Safe, SchedOk, Sane, Picked, Split, ReceiveAll, Prepared, TimersOk, Placed, CycleAllowed, GridOf, Horizons,
      Spaced, TickAll, IssueAll, LogOk, Command;
    PoppedReady(p, m, refresh, pick);
    var w := Settle(p, m.rows, m.now);
    var c := Command(p, Prepared(m.sched, refresh), pick);
    if c.Some? {
      IssuedSpaced(p, m.past.log, w.banks, c.value, m.now);
      IssuedHorizons(p, m.past.log, w.banks, c.value, m.now);
      TickedHorizons(p, m.past.log + [Issued(m.now, c.value)], IssueAll(p, w.banks, c.value, m.now), m.now);
    } else {
      TickedHorizons(p, m.past.log, w.banks, m.now);
      LaterLog(p, m.past.log, m.now);
    }
  }

  lemma LaterLog(p: Params, log: seq<Issued>, now: int)
    requires LogOk(p, log, now)
    ensures LogOk(p, log, now + 1)
  {
  }
}
