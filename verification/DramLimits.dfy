/** Why progress asks for a precharge of at least one cycle, and for queues with room for two commands. */
module DramLimits {
  import opened Basics
  import opened DramBanks
  import opened DramQueues
  import opened DramScheduling
  import opened DramSchedulerSteps
  import opened DramPipes
  import opened DramRuns
  import opened DramSafety
  import opened DramSpacing
  import opened DramWindows
  import opened DramOrder
  import opened DramData
  import opened DramReads
  import opened DramCrossRank
  import opened DramTheorems
  import opened DramWork
  import opened DramLiveness

  // A precharge of no cycles is never seen to end.

  predicate UsesRow(c: Packet, rank: nat, bank: nat) {
    (c.kind == Activate || IsColumn(c.kind)) && c.at.rank == rank && c.at.bank == bank
  }

  /** A bank that was activated is idle no more, and serves no other row. */
  ghost predicate OneRow(s: BankState, log: seq<Issued>, rank: nat, bank: nat) {
    && s.state != Refreshing && (s.state == Precharging ==> s.countdown <= 0)
    && forall i :: 0 <= i < |log| && UsesRow(log[i].cmd, rank, bank) ==> s.state != Idle && log[i].cmd.at.row == s.row
  }

  lemma IssueOneRow(p: Params, s: BankState, rank: nat, bank: nat, c: Packet, log: seq<Issued>, now: int)
    requires p.tRP == 0 && OneRow(s, log, rank, bank) && c.kind != Refresh
    requires rank == c.at.rank && bank == c.at.bank ==> BankReady(p, s, c, now)
    ensures OneRow(IssueBank(p, s, rank, bank, c, now), log + [Issued(now, c)], rank, bank)
  {
  }

  lemma TickOneRow(p: Params, s: BankState, rank: nat, bank: nat, log: seq<Issued>, now: int)
    requires p.tRP == 0 && OneRow(s, log, rank, bank) && TimerOk(p, s, now)
    ensures OneRow(TickBank(p, s), log, rank, bank)
  {
    hide UsesRow;
  }

  ghost predicate AllOneRow(p: Params, m: Mem) {
    var banks := TickAll(p, m.rows.banks);
    && m.sched.refresh == None && GridOf(p, banks)
    && forall r: nat, b: nat :: InRange(p, r, b) ==> OneRow(banks[r][b], m.past.log, r, b)
  }

  lemma CycleOneRow(p: Params, m: Mem, pick: Pick)
    requires Sane(p) && Placed(p) && p.tRP == 0 && Safe(p, m.rows, m.sched, m.now) && CycleAllowed(p, m, None, pick)
    requires AllOneRow(p, m)
    ensures AllOneRow(p, Cycle(p, m, None, pick))
  {
    hide Safe, SchedOk, Sane, Picked, Split, ReceiveAll, TimerOk, Placed, Command, BankReady, Eligible, Prior,
      Wellformed, OneRow, IssueBank, TickBank, Cycle;
    PoppedReady(p, m, None, pick);
    CycleBanks(p, m, None, pick);
    CycleBack(p, m, None, pick);
    NoneComesDue(p, m, pick);
    var st, banks, c, m' := Prepared(m.sched, None), TickAll(p, m.rows.banks), CommandOf(p, m, None, pick),
        Cycle(p, m, None, pick);
    if c.Some? && c.value.kind == Refresh { OnlyRefreshRefreshes(p, st, banks, pick, m.now); }
    forall r: nat, b: nat | InRange(p, r, b) ensures OneRow(TickAll(p, m'.rows.banks)[r][b], m'.past.log, r, b) {
      if c.Some? { IssueOneRow(p, banks[r][b], r, b, c.value, m.past.log, m.now); }
      TickOneRow(p, m'.rows.banks[r][b], r, b, m'.past.log, m.now);
    }
  }

  lemma NoneComesDue(p: Params, m: Mem, pick: Pick)
    requires Placed(p) && CycleAllowed(p, m, None, pick) && m.sched.refresh == None
    ensures Cycle(p, m, None, pick).sched.refresh == None
  {
    hide TickAll, IssueAll, ReceiveAll, Eligible, Prior, Wellformed, Removed;
  }

  lemma {:induction false} RunOneRow(p: Params, m: Mem, es: seq<Event>, z: Mem)
    requires Sane(p) && Placed(p) && p.tRP == 0 && Consistent(p, m) && AllOneRow(p, m) && Run(p, m, es, z)
             && Due(es) == 0
    ensures AllOneRow(p, z)
    decreases |es|
  {
    hide Safe, SpacingOk, WindowsOk, OrderOk, ReadPipesOk, ReadsOk, CrossOk, TracesOk, CycleAllowed, Cycle, Sane,
      Placed;
    if es != [] {
      StepConsistent(p, m, es[0]);
      if es[0].Clock? { CycleOneRow(p, m, es[0].pick); }
      RunOneRow(p, Next(p, m, es[0]), es[1..], z);
    }
  }

  /** With tRP zero and no refresh, transactions to two rows of one bank are never both issued. */
  lemma PrechargeMustEnd(p: Params, start: Mem, es: seq<Event>, m: Mem, t: Txn, u: Txn)
    requires Sane(p) && p.tRP == 0 && Reaches(p, start, es, m) && Due(es) == 0
    requires p.place(t.addr).rank == p.place(u.addr).rank && p.place(t.addr).bank == p.place(u.addr).bank
    requires p.place(t.addr).row != p.place(u.addr).row
    ensures !ColumnIssued(p, m.past.log, t) || !ColumnIssued(p, m.past.log, u)
  {
    hide Run, Consistent, Placed, Due, TickAll;
    FreshConsistent(p, start);
    FreshOneRow(p, start);
    RunOneRow(p, start, es, m);
    assert InRange(p, p.place(t.addr).rank, p.place(t.addr).bank);
  }

  lemma FreshOneRow(p: Params, m: Mem)
    requires Fresh(p, m)
    ensures AllOneRow(p, m)
  {
    assert TickBank(p, FreshBank) == FreshBank;
  }

  // A queue that cannot hold two commands.

  lemma {:induction false} RunUnused(p: Params, m: Mem, es: seq<Event>, z: Mem)
    requires Placed(p) && p.queueDepth < 2 && Unused(p, m.sched, m.past.log) && Run(p, m, es, z)
    ensures Unused(p, z.sched, z.past.log)
    decreases |es|
  {
    hide CycleAllowed, Cycle, Placed, Unused;
    if es != [] {
      if es[0].Clock? { UnusedStays(p, m, es[0].refresh, es[0].pick); }
      RunUnused(p, Next(p, m, es[0]), es[1..], z);
    }
  }

  /** In queues with room for fewer than two commands no transaction is ever issued. */
  lemma NoRoomNoIssue(p: Params, start: Mem, es: seq<Event>, m: Mem, t: Txn)
    requires p.queueDepth < 2 && Reaches(p, start, es, m)
    ensures !ColumnIssued(p, m.past.log, t)
  {
    hide Run, Placed;
    forall r: nat, b: nat | InRange(p, r, b) ensures QueueAt(p, start.sched, r, b) == [] {}
    RunUnused(p, start, es, m);
  }
}
