/** A row is used a bounded number of times between its activate and its precharge. */
module DramAccesses {
  import opened Basics
  import opened DramBanks
  import opened DramQueues
  import opened DramScheduling
  import opened DramSchedulerSteps
  import opened DramPipes
  import opened DramRuns
  import opened DramSafety
  import opened DramSpacing
  import opened DramWindows
  import opened DramOrder
  import opened DramData
  import opened DramReads
  import opened DramCrossRank
  import opened DramTheorems
  import opened DramProgress

  /** How many column commands went to a bank since it was activated. */
  function SinceActivate(log: seq<Issued>, rank: nat, bank: nat): nat {
    if log == [] then 0
    else
      var c, n := log[|log| - 1].cmd, SinceActivate(log[..|log| - 1], rank, bank);
      if c.at.rank != rank || c.at.bank != bank then n
      else if c.kind == Activate then 0 else if IsColumn(c.kind) then n + 1 else n
  }

  /** The column of the activate itself, and those that found the row open. */
  function Limit(p: Params): nat { if p.openPage then p.rowAccesses + 1 else 1 }

  lemma SinceSnoc(log: seq<Issued>, e: Issued, rank: nat, bank: nat)
    ensures SinceActivate(log + [e], rank, bank) ==
            var n := SinceActivate(log, rank, bank);
            if e.cmd.at.rank != rank || e.cmd.at.bank != bank then n
            else if e.cmd.kind == Activate then 0 else if IsColumn(e.cmd.kind) then n + 1 else n
  {
    assert (log + [e])[..|log|] == log;
  }

  /** The counter leaves out the column of the activate itself, which may be still to come. */
  ghost predicate Tallied(q: Queue, s: BankState, counter: nat, since: nat, bank: nat) {
    s.state == RowActive ==> since + (if HasLoose(q, bank) then 1 else 0) == counter + 1
  }

  /** A pick at the bank it concerns. */
  lemma TakenTally(p: Params, q: Queue, i: nat, absorb: bool, s: BankState, counter: nat, since: nat,
      row: seq<BankState>,
      counters: seq<nat>, rank: nat, now: int)
    requires Paired(q) && Removable(q, i, absorb) && NotStranded(q, row, counters)
    requires var c := q[i];
             && c.at.bank < |row| && row[c.at.bank] == s && c.at.rank == rank && BankReady(p, s, c, now)
             && (c.kind == Activate || IsColumn(c.kind)) && Tallied(q, s, counter, since, c.at.bank)
             && (counter > 0 ==> s.state == RowActive)
    ensures var c := q[i];
            Tallied(Removed(q, i, absorb), IssueBank(p, s, rank, c.at.bank, c, now), if absorb then counter + 1
                else counter,
              if c.kind == Activate then 0 else since + 1, c.at.bank)
  {
    hide Removed, NotStranded, Paired, FirstOfBank, FirstOfRow, IssueBank;
    var c := q[i];
    if c.kind == Activate {
      RemovedKeepsLoose(q, i, c.at.bank);
    } else {
      if absorb { NoLooseYet(p, q, i, row, counters, now); } else { assert HasLoose(q, c.at.bank); }
      NoMoreLoose(p, q, i, absorb, row, counters, c, now);
    }
  }

  /** A column that drops its activate is the first for its row, so no loose column of the bank is before it. */
  lemma NoLooseYet(p: Params, q: Queue, i: nat, row: seq<BankState>, counters: seq<nat>, now: int)
    requires Paired(q) && Removable(q, i, true) && NotStranded(q, row, counters)
    requires q[i].at.bank < |row| && BankReady(p, row[q[i].at.bank], q[i], now)
    ensures !HasLoose(q, q[i].at.bank)
  {
    hide FirstOfRow;
    forall k | Loose(q, k) ensures q[k].at.bank != q[i].at.bank {
      if q[k].at.bank == q[i].at.bank { FirstIsLast(q, i, k); }
    }
  }

  lemma FirstIsLast(q: Queue, i: nat, k: nat)
    requires i < |q| && FirstOfRow(q, i) && Loose(q, k) && FirstOfBank(q, k) && q[k].at.bank == q[i].at.bank
    ensures q[k].at.row != q[i].at.row || k == i
  {
  }

  lemma NoMoreLoose(p: Params, q: Queue, i: nat, absorb: bool, row: seq<BankState>, counters: seq<nat>, c: Packet,
      now: int)
    requires Paired(q) && Removable(q, i, absorb) && NotStranded(q, row, counters) && c == q[i] && IsColumn(c.kind)
    requires c.at.bank < |row| && BankReady(p, row[c.at.bank], c, now)
    ensures !HasLoose(Removed(q, i, absorb), c.at.bank)
  {
    hide Removed, NotStranded, Paired, FirstOfBank, FirstOfRow;
    var r := Removed(q, i, absorb);
    forall k | Loose(r, k) ensures r[k].at.bank != c.at.bank { LooseElsewhere(q, i, absorb, row, counters, k); }
  }

  /** A pick neither gives nor takes a loose column of another bank. */
  lemma OthersLoose(q: Queue, i: nat, absorb: bool, bank: nat)
    requires Paired(q) && Removable(q, i, absorb) && bank != q[i].at.bank
    ensures HasLoose(Removed(q, i, absorb), bank) <==> HasLoose(q, bank)
  {
    hide Removed, Paired, FirstOfBank, FirstOfRow;
    var r := Removed(q, i, absorb);
    if HasLoose(r, bank) {
      var k :| Loose(r, k) && r[k].at.bank == bank;
      RemovedLoose(q, i, absorb, k);
    }
    if HasLoose(q, bank) {
      if absorb { AbsorbKeepsLoose(q, i, bank); } else { RemovedKeepsLoose(q, i, bank); }
    }
  }

  lemma AbsorbKeepsLoose(q: Queue, i: nat, bank: nat)
    requires Paired(q) && Removable(q, i, true) && bank != q[i].at.bank && HasLoose(q, bank)
    ensures HasLoose(Removed(q, i, true), bank)
  {
    hide Removed, FirstOfRow;
    var r := Removed(q, i, true);
    var k :| Loose(q, k) && q[k].at.bank == bank;
    NoActivateBefore(q, i - 1);
    var k' := if k < i then k else k - 2;
    assert r[k'] == q[k] && Loose(r, k');
  }

  lemma OtherTally(p: Params, q: Queue, q': Queue, s: BankState, counter: nat, since: nat, rank: nat, bank: nat,
      c: Packet, now: int)
    requires Tallied(q, s, counter, since, bank) && (HasLoose(q', bank) <==> HasLoose(q, bank))
    requires (c.kind == Activate || IsColumn(c.kind)) && (c.at.rank != rank || c.at.bank != bank)
    ensures Tallied(q', IssueBank(p, s, rank, bank, c, now), counter, since, bank)
  {
    hide HasLoose;
  }

  ghost predicate AllTallied(p: Params, st: Sched, banks: Banks, log: seq<Issued>)
    requires Shaped(p, st) && GridOf(p, banks)
  {
    forall r: nat, b: nat :: InRange(p, r, b) ==>
      Tallied(QueueAt(p, st, r, b), banks[r][b], st.counters[r][b], SinceActivate(log, r, b), b)
  }

  lemma TakeTally(p: Params, st: Sched, banks: Banks, rank: nat, bank: nat, i: nat, absorb: bool, log: seq<Issued>,
      now: int)
    requires Sane(p) && SchedOk(p, st, banks) && Wellformed(p, st, banks) && TimersOk(p, banks, now)
    requires Eligible(p, st, banks, Take(rank, bank, i, absorb), now) && AllTallied(p, st, banks, log)
    ensures Valid(p, st, Take(rank, bank, i, absorb))
    ensures var st', c := Picked(p, st, Take(rank, bank, i, absorb)), QueueAt(p, st, rank, bank)[i];
            && GridOf(p, IssueAll(p, banks, c, now))
            && AllTallied(p, st', IssueAll(p, banks, c, now), log + [Issued(now, c)])
  {
    hide SchedOk, Sane, TimersOk, Eligible, IssueBank, BankReady, Removable, Tallied, Removed, Wellformed, Homed,
      Paired, NotStranded, SinceActivate;
    SchedShaped(p, st, banks);
    TakeOk(p, st, banks, rank, bank, i, absorb, now);
    var q := QueueAt(p, st, rank, bank);
    var c, st' := q[i], Picked(p, st, Take(rank, bank, i, absorb));
    QueueIsOk(p, st, banks, rank, bank);
    forall r: nat, b: nat | InRange(p, r, b)
      ensures Tallied(QueueAt(p, st', r, b), IssueAll(p, banks, c, now)[r][b], st'.counters[r][b],
                SinceActivate(log + [Issued(now, c)], r, b), b)
    {
      assert Tallied(QueueAt(p, st, r, b), banks[r][b], st.counters[r][b], SinceActivate(log, r, b), b);
      SinceSnoc(log, Issued(now, c), r, b);
      if r == c.at.rank && b == c.at.bank {
        TakenTally(p, q, i, absorb, banks[r][b], st.counters[r][b], SinceActivate(log, r, b), banks[rank],
            st.counters[rank], rank, now);
      } else {
        if QueueAt(p, st', r, b) != QueueAt(p, st, r, b) { OthersLoose(q, i, absorb, b); }
        OtherTally(p, QueueAt(p, st, r, b), QueueAt(p, st', r, b), banks[r][b], st.counters[r][b],
            SinceActivate(log, r, b), r, b, c, now);
      }
    }
  }

  /** A precharge or a refresh. */
  lemma ClosedTally(p: Params, q: Queue, s: BankState, counter: nat, counter': nat, since: nat, rank: nat, bank: nat,
      c: Packet,
      now: int)
    requires Tallied(q, s, counter, since, bank) && (c.kind == Precharge || c.kind == Refresh)
    requires counter' == counter || (c.kind == Precharge && c.at.rank == rank && c.at.bank == bank)
    ensures Tallied(q, IssueBank(p, s, rank, bank, c, now), counter', since, bank)
  {
    hide HasLoose;
  }

  lemma PickTally(p: Params, st: Sched, banks: Banks, pick: Pick, log: seq<Issued>, now: int)
    requires Sane(p) && SchedOk(p, st, banks) && Wellformed(p, st, banks) && TimersOk(p, banks, now)
    requires Eligible(p, st, banks, pick, now) && Valid(p, st, pick) && AllTallied(p, st, banks, log)
    ensures Command(p, st, pick).Some? ==>
              var c := Command(p, st, pick).value;
              && GridOf(p, IssueAll(p, banks, c, now))
              && AllTallied(p, Picked(p, st, pick), IssueAll(p, banks, c, now), log + [Issued(now, c)])
    ensures Command(p, st, pick).None? ==> AllTallied(p, Picked(p, st, pick), banks, log)
  {
    hide SchedOk, Sane, TimersOk, IssueBank, Tallied, Wellformed, Scheduled, Flushed, FirstForRow, NothingToDo,
      Removed, SinceActivate;
    SchedShaped(p, st, banks);
    if pick.Take? {
      TakeTally(p, st, banks, pick.rank, pick.bank, pick.i, pick.absorb, log, now);
    } else if pick != Nothing {
      var c, st' := Command(p, st, pick).value, Picked(p, st, pick);
      forall r: nat, b: nat | InRange(p, r, b)
        ensures Tallied(QueueAt(p, st', r, b), IssueAll(p, banks, c, now)[r][b], st'.counters[r][b],
                  SinceActivate(log + [Issued(now, c)], r, b), b)
      {
        assert Tallied(QueueAt(p, st, r, b), banks[r][b], st.counters[r][b], SinceActivate(log, r, b), b);
        SinceSnoc(log, Issued(now, c), r, b);
        ClosedTally(p, QueueAt(p, st, r, b), banks[r][b], st.counters[r][b], st'.counters[r][b],
            SinceActivate(log, r, b), r, b, c, now);
      }
    }
  }

  lemma TickTally(p: Params, q: Queue, s: BankState, counter: nat, since: nat, bank: nat, now: int)
    requires TimerOk(p, s, now) && Tallied(q, s, counter, since, bank)
    ensures Tallied(q, TickBank(p, s), counter, since, bank)
  {
    hide HasLoose;
  }

  lemma TickedTally(p: Params, st: Sched, banks: Banks, log: seq<Issued>, now: int)
    requires Shaped(p, st) && GridOf(p, banks) && TimersOk(p, banks, now) && AllTallied(p, st, banks, log)
    ensures GridOf(p, TickAll(p, banks)) && AllTallied(p, st, TickAll(p, banks), log)
  {
    hide TickBank, Tallied, TimerOk, SinceActivate;
    forall r: nat, b: nat | InRange(p, r, b)
      ensures Tallied(QueueAt(p, st, r, b), TickAll(p, banks)[r][b], st.counters[r][b], SinceActivate(log, r, b), b)
    {
      assert Tallied(QueueAt(p, st, r, b), banks[r][b], st.counters[r][b], SinceActivate(log, r, b), b);
      TickTally(p, QueueAt(p, st, r, b), banks[r][b], st.counters[r][b], SinceActivate(log, r, b), b, now);
    }
  }

  /** The commands of a transaction bring no loose column. */
  lemma AppendedNotLoose(p: Params, q: Queue, t: Txn, bank: nat)
    ensures HasLoose(q + CommandsOf(p, t.isWrite, t.addr, t.id), bank) <==> HasLoose(q, bank)
  {
    var q' := q + CommandsOf(p, t.isWrite, t.addr, t.id);
    if HasLoose(q', bank) {
      var i :| Loose(q', i) && q'[i].at.bank == bank;
      assert Loose(q, i) && q[i] == q'[i];
    }
    if HasLoose(q, bank) { AppendLoose(q, CommandsOf(p, t.isWrite, t.addr, t.id), bank); }
  }

  lemma SplitTally(p: Params, st: Sched, banks: Banks, waiting: seq<Txn>, d: Data, log: seq<Issued>)
    requires Placed(p) && Shaped(p, st) && GridOf(p, banks) && AllTallied(p, st, banks, log)
    ensures var st' := Split(p, st, waiting, d).0; Shaped(p, st') && AllTallied(p, st', banks, log)
  {
    hide HasLoose, HasRoom, SinceActivate;
    var i := FirstWithRoom(p, st, waiting, 0);
    if i < |waiting| {
      var t := waiting[i];
      var cs, st' := CommandsOf(p, t.isWrite, t.addr, t.id), Enqueued(p, st, t.isWrite, t.addr, t.id);
      forall r: nat, b: nat | InRange(p, r, b)
        ensures Tallied(QueueAt(p, st', r, b), banks[r][b], st'.counters[r][b], SinceActivate(log, r, b), b)
      {
        var q := QueueAt(p, st, r, b);
        assert Tallied(q, banks[r][b], st.counters[r][b], SinceActivate(log, r, b), b);
        AppendedNotLoose(p, q, t, b);
        assert QueueAt(p, st', r, b) == q || QueueAt(p, st', r, b) == q + cs;
      }
    }
  }

  lemma PreparedTally(p: Params, st: Sched, refresh: Option<nat>, banks: Banks, log: seq<Issued>)
    requires Shaped(p, st) && GridOf(p, banks) && AllTallied(p, st, banks, log)
             && (refresh.Some? ==> refresh.value < p.ranks)
    ensures Shaped(p, Prepared(st, refresh)) && AllTallied(p, Prepared(st, refresh), banks, log)
  {
    hide Tallied, SinceActivate;
    var st' := Prepared(st, refresh);
    forall r: nat, b: nat | InRange(p, r, b)
      ensures Tallied(QueueAt(p, st', r, b), banks[r][b], st'.counters[r][b], SinceActivate(log, r, b), b)
    {
      assert Tallied(QueueAt(p, st, r, b), banks[r][b], st.counters[r][b], SinceActivate(log, r, b), b);
    }
  }

  // The limit.

  ghost predicate WithinLimit(p: Params, log: seq<Issued>) {
    forall j: nat, r: nat, b: nat :: j <= |log| && InRange(p, r, b) ==> SinceActivate(log[..j], r, b) <= Limit(p)
  }

  ghost predicate AccessesOk(p: Params, m: Mem) {
    var banks := TickAll(p, m.rows.banks);
    && Shaped(p, m.sched) && GridOf(p, banks) && AllTallied(p, m.sched, banks, m.past.log) && WithinLimit(p, m.past.log)
  }

  lemma TallyBound(p: Params, st: Sched, banks: Banks, log: seq<Issued>, c: Packet)
    requires SchedOk(p, st, banks) && AllTallied(p, st, banks, log) && CountersWithin(p, st)
    requires InRange(p, c.at.rank, c.at.bank) && banks[c.at.rank][c.at.bank].state == RowActive
    ensures SinceActivate(log, c.at.rank, c.at.bank) <= Limit(p)
  {
    hide SinceActivate, HasLoose, SchedOk, QueueOk;
    SchedShaped(p, st, banks);
    QueueIsOk(p, st, banks, c.at.rank, c.at.bank);
    var r, b := c.at.rank, c.at.bank;
    assert Tallied(QueueAt(p, st, r, b), banks[r][b], st.counters[r][b], SinceActivate(log, r, b), b);
  }

  lemma LimitSnoc(p: Params, log: seq<Issued>, e: Issued)
    requires WithinLimit(p, log) && InRange(p, e.cmd.at.rank, e.cmd.at.bank)
    requires IsColumn(e.cmd.kind) ==> SinceActivate(log + [e], e.cmd.at.rank, e.cmd.at.bank) <= Limit(p)
    ensures WithinLimit(p, log + [e])
  {
    hide Limit;
    var log' := log + [e];
    forall j: nat, r: nat, b: nat | j <= |log'| && InRange(p, r, b) ensures SinceActivate(log'[..j], r, b) <= Limit(p) {
      if j <= |log| {
        assert log'[..j] == log[..j];
      } else {
        assert log'[..j] == log' && log[..|log|] == log;
        SinceSnoc(log, e, r, b);
      }
    }
  }

  lemma CycleAccesses(p: Params, m: Mem, refresh: Option<nat>, pick: Pick)
    requires Sane(p) && Placed(p) && Safe(p, m.rows, m.sched, m.now) && CycleAllowed(p, m, refresh, pick) && Live(p, m)
    requires AccessesOk(p, m)
    ensures AccessesOk(p, Cycle(p, m, refresh, pick))
  {
    hide Safe, SchedOk, Sane, Picked, Split, ReceiveAll, Prepared, TimersOk, Placed, GridOf, TickAll, IssueAll,
      Command, AllTallied, CountersWithin, Eligible, Prior, Wellformed, Shaped, AllWithin, AllAwaited, WithinLimit,
      SinceActivate, Limit, BankReady;
    PoppedReady(p, m, refresh, pick);
    var st, banks, now, log := Prepared(m.sched, refresh), TickAll(p, m.rows.banks), m.now, m.past.log;
    PreparedTally(p, m.sched, refresh, banks, log);
    PreparedLive(p, m.sched, refresh, banks);
    PickTally(p, st, banks, pick, log, now);
    var c := Command(p, st, pick);
    var banks', log' := if c.Some? then IssueAll(p, banks, c.value, now) else banks, IssuePast(m.past, c, now).log;
    if c.Some? {
      PickedLimit(p, st, banks, pick, log, now);
      LimitSnoc(p, log, Issued(now, c.value));
    }
    TickedTally(p, Picked(p, st, pick), banks', log', now);
    SplitTally(p, Picked(p, st, pick), TickAll(p, banks'), m.waiting, IssueData(p, Move(p, m.data, m.rows.bus), c),
        log');
  }

  /** After a column command its bank's row is still open, and the tally bounds it. */
  lemma PickedLimit(p: Params, st: Sched, banks: Banks, pick: Pick, log: seq<Issued>, now: int)
    requires Sane(p) && SchedOk(p, st, banks) && Wellformed(p, st, banks) && TimersOk(p, banks, now)
    requires Eligible(p, st, banks, pick, now) && Valid(p, st, pick) && CountersWithin(p, st)
             && Command(p, st, pick).Some?
    requires var c := Command(p, st, pick).value;
             && GridOf(p, IssueAll(p, banks, c, now)) && InRange(p, c.at.rank, c.at.bank)
             && ReadyCommand(p, banks, c, now)
             && AllTallied(p, Picked(p, st, pick), IssueAll(p, banks, c, now), log + [Issued(now, c)])
    ensures var c := Command(p, st, pick).value;
            IsColumn(c.kind) ==> SinceActivate(log + [Issued(now, c)], c.at.rank, c.at.bank) <= Limit(p)
  {
    hide SchedOk, Sane, TimersOk, Eligible, AllTallied, CountersWithin, Wellformed, SinceActivate, Limit, Removed,
      Picked;
    SchedShaped(p, st, banks);
    var c := Command(p, st, pick).value;
    if IsColumn(c.kind) {
      PickCounters(p, st, banks, pick, now);
      PickOk(p, st, banks, pick, now);
      TallyBound(p, Picked(p, st, pick), IssueAll(p, banks, c, now), log + [Issued(now, c)], c);
    }
  }

  lemma FreshAccesses(p: Params, m: Mem)
    requires Fresh(p, m)
    ensures AccessesOk(p, m)
  {
    var banks := TickAll(p, m.rows.banks);
    assert TickBank(p, FreshBank) == FreshBank;
    forall r: nat, b: nat | InRange(p, r, b) ensures banks[r][b] == FreshBank {}
    assert m.past.log[..0] == [];
  }

  lemma {:induction false} RunAccesses(p: Params, m: Mem, es: seq<Event>, z: Mem)
    requires Sane(p) && Placed(p) && Consistent(p, m) && Live(p, m) && AccessesOk(p, m) && Run(p, m, es, z)
    ensures AccessesOk(p, z)
    decreases |es|
  {
    hide Safe, SpacingOk, WindowsOk, OrderOk, ReadPipesOk, ReadsOk, CrossOk, TracesOk, CycleAllowed, Cycle, Sane,
      Placed, AllWithin, AllAwaited, CountersWithin, AllTallied, WithinLimit;
    if es != [] {
      StepConsistent(p, m, es[0]);
      if es[0].Clock? {
        CycleLive(p, m, es[0].refresh, es[0].pick);
        CycleAccesses(p, m, es[0].refresh, es[0].pick);
      }
      RunAccesses(p, Next(p, m, es[0]), es[1..], z);
    }
  }

  /** At every moment of every run, a bank got at most so many column commands since its last activate. */
  lemma RowAccessesBounded(p: Params, start: Mem, es: seq<Event>, m: Mem, j: nat, rank: nat, bank: nat)
    requires Sane(p) && Reaches(p, start, es, m) && j <= |m.past.log| && InRange(p, rank, bank)
    ensures SinceActivate(m.past.log[..j], rank, bank) <= if p.openPage then p.rowAccesses + 1 else 1
  {
    hide Run, Fresh, Sane, Consistent, Live, Placed, AllTallied, SinceActivate;
    FreshConsistent(p, start);
    FreshLive(p, start);
    FreshAccesses(p, start);
    RunAccesses(p, start, es, m);
  }

  /**
   A row is closed only if a refresh waits for its rank, if no queued command goes to it, or if it was used as
   often as it may be; and, unless for the refresh, only when nothing else could be issued.
   */
  lemma RowsStayOpen(p: Params, start: Mem, es: seq<Event>, m: Mem, refresh: Option<nat>, pick: Pick, rank: nat,
      bank: nat)
    requires Sane(p) && Reaches(p, start, es, m) && CycleAllowed(p, m, refresh, pick) && InRange(p, rank, bank)
    requires Cycle(p, m, refresh, pick).past.log == m.past.log
             + [Issued(m.now, Packet(Precharge, 0, Place(rank, bank, 0), 0))]
    ensures Shaped(p, m.sched) && GridOf(p, TickAll(p, m.rows.banks))
    ensures || (if refresh.Some? then refresh else m.sched.refresh) == Some(rank)
            || (forall i :: 0 <= i < |QueueAt(p, m.sched, rank, bank)| ==>
                  var c := QueueAt(p, m.sched, rank, bank)[i];
                  c.at.bank != bank || c.at.row != TickAll(p, m.rows.banks)[rank][bank].row)
            || SinceActivate(m.past.log, rank, bank) == p.rowAccesses + 1
    ensures var st, banks := Prepared(m.sched, refresh), TickAll(p, m.rows.banks);
            Wellformed(p, st, banks) && (st.refresh == Some(rank) || NoneReady(p, st, banks, m.now))
  {
    hide Run, Fresh, Sane, Live, Placed, AllTallied, SinceActivate, WithinLimit, TickAll, IssueAll, Eligible, Prior,
      Wellformed, Cycle, SpacingOk, WindowsOk, OrderOk, ReadPipesOk, ReadsOk, CrossOk, TracesOk, Linked, SchedOk,
      Picked;
    FreshConsistent(p, start);
    FreshLive(p, start);
    FreshAccesses(p, start);
    RunAccesses(p, start, es, m);
    Reached(p, start, es, m);
    PoppedReady(p, m, refresh, pick);
    CycleBack(p, m, refresh, pick);
    var st, banks, log' := Prepared(m.sched, refresh), TickAll(p, m.rows.banks), Cycle(p, m, refresh, pick).past.log;
    assert log'[|m.past.log|].cmd == Packet(Precharge, 0, Place(rank, bank, 0), 0);
    PreparedTally(p, m.sched, refresh, banks, m.past.log);
    ClosedWhy(p, st, banks, pick, m.past.log, rank, bank, m.now);
  }

  lemma ClosedWhy(p: Params, st: Sched, banks: Banks, pick: Pick, log: seq<Issued>, rank: nat, bank: nat, now: int)
    requires Sane(p) && SchedOk(p, st, banks) && Wellformed(p, st, banks) && AllTallied(p, st, banks, log)
    requires Allowed(p, st, banks, pick, now) && Valid(p, st, pick) && InRange(p, rank, bank)
    requires Command(p, st, pick) == Some(Packet(Precharge, 0, Place(rank, bank, 0), 0))
    ensures || st.refresh == Some(rank)
            || FirstForRow(QueueAt(p, st, rank, bank), bank, banks[rank][bank].row, 0) == |QueueAt(p, st, rank, bank)|
            || SinceActivate(log, rank, bank) == p.rowAccesses + 1
    ensures st.refresh == Some(rank) || NoneReady(p, st, banks, now)
  {
    hide SchedOk, Wellformed, NothingToDo, Scheduled, Flushed, FirstForRow, SinceActivate, AllReadyForRefresh, Homed,
      Paired, NoneReady, Issuable;
    SchedShaped(p, st, banks);
    if pick.Take? {
      QueueIsOk(p, st, banks, pick.rank, pick.bank);
      HomedHere(p, QueueAt(p, st, pick.rank, pick.bank), pick.i, pick.rank, QueueIndex(p, pick.bank));
    } else {
      QueueIsOk(p, st, banks, rank, bank);
      assert Tallied(QueueAt(p, st, rank, bank), banks[rank][bank], st.counters[rank][bank],
          SinceActivate(log, rank, bank), bank);
    }
  }
}
