/**
 What progress rests on: no horizon is far ahead, every row left open for a column has that column queued, and no
 counter passes its limit.
 */
module DramProgress {
  import opened Basics
  import opened DramBanks
  import opened DramQueues
  import opened DramScheduling
  import opened DramSchedulerSteps
  import opened DramPipes
  import opened DramRuns
  import opened DramSafety
  import opened DramSpacing
  import opened DramWindows
  import opened DramOrder
  import opened DramData
  import opened DramReads
  import opened DramCrossRank
  import opened DramTheorems

  // Horizons are near.

  /** No command reaches further into the future. */
  function Span(p: Params): nat {
    p.CL + p.AL + p.BL + p.tRAS + p.tRCD + p.tRRD + p.tRC + p.tRP + p.tCCD + p.tRTP + p.tWTR + p.tWR + p.tRTRS + p.tRFC
        + p.tFAW
  }

  /** The bank's horizons and countdowns are over by then, and so is a precharge that follows. */
  ghost predicate Within(p: Params, s: BankState, now: int, until: int) {
    && s.nextRead <= until && s.nextWrite <= until && s.nextActivate <= until && s.nextPrecharge <= until
    && now + s.countdown <= until && (s.countdown > 0 && s.state == RowActive ==> now + s.countdown + p.tRP <= until)
  }

  /** A precharge takes at least a cycle; otherwise the bank's state would never change back. */
  ghost predicate Returns(p: Params, s: BankState) { p.tRP >= 1 && s.state == Precharging ==> s.countdown >= 1 }

  lemma DelaysWithin(p: Params)
    requires Sane(p)
    ensures 0 <= ReadToPre(p) <= Span(p) && 0 <= WriteToPre(p) <= Span(p) && ReadToWrite(p) <= Span(p)
    ensures ReadAutoPre(p) <= Span(p) && WriteAutoPre(p) <= Span(p) && WriteToReadBank(p) <= Span(p)
    ensures WriteToReadRank(p) <= Span(p) && ColumnGap(p) <= Span(p) && Burst(p) + p.tRTRS <= Span(p)
    ensures p.tRC <= Span(p) && p.tRRD <= Span(p) && p.tRAS <= Span(p) && p.tRP <= Span(p) && p.tRFC <= Span(p)
    ensures p.tRCD - p.AL <= Span(p) && p.tFAW <= Span(p) && ReadToPre(p) + p.tRP <= Span(p)
            && WriteToPre(p) + p.tRP <= Span(p)
  {
  }

  lemma IssueWithin(p: Params, s: BankState, rank: nat, bank: nat, c: Packet, now: int)
    requires Sane(p) && Within(p, s, now, now + Span(p)) && Returns(p, s) && TimerOk(p, s, now)
    requires rank == c.at.rank && bank == c.at.bank ==> BankReady(p, s, c, now)
    ensures var s' := IssueBank(p, s, rank, bank, c, now); Within(p, s', now, now + Span(p)) && Returns(p, s')
  {
    hide Sane, Span, ReadToPre, WriteToPre, ReadToWrite, ReadAutoPre, WriteAutoPre, WriteToReadBank, WriteToReadRank,
      ColumnGap, Burst;
    DelaysWithin(p);
  }

  lemma TickWithin(p: Params, s: BankState, now: int, until: int)
    requires TimerOk(p, s, now) && Within(p, s, now, until) && Returns(p, s) && now < until
    ensures var s' := TickBank(p, s); Within(p, s', now + 1, until) && Returns(p, s')
  {
  }

  ghost predicate AllWithin(p: Params, banks: Banks, now: int, until: int)
    requires GridOf(p, banks)
  {
    forall r: nat, b: nat :: InRange(p, r, b) ==> Within(p, banks[r][b], now, until) && Returns(p, banks[r][b])
  }

  lemma IssuedNear(p: Params, banks: Banks, c: Packet, now: int)
    requires Sane(p) && GridOf(p, banks) && TimersOk(p, banks, now) && AllWithin(p, banks, now, now + Span(p))
    requires ReadyCommand(p, banks, c, now)
    ensures GridOf(p, IssueAll(p, banks, c, now)) && AllWithin(p, IssueAll(p, banks, c, now), now, now + Span(p))
  {
    hide Sane, IssueBank, Within, Returns, Span, TimerOk, BankReady;
    var banks' := IssueAll(p, banks, c, now);
    forall r: nat, b: nat | InRange(p, r, b)
      ensures Within(p, banks'[r][b], now, now + Span(p)) && Returns(p, banks'[r][b])
    {
      IssueWithin(p, banks[r][b], r, b, c, now);
    }
  }

  lemma TickedWithin(p: Params, banks: Banks, now: int, until: int)
    requires GridOf(p, banks) && TimersOk(p, banks, now) && AllWithin(p, banks, now, until) && now < until
    ensures GridOf(p, TickAll(p, banks)) && AllWithin(p, TickAll(p, banks), now + 1, until)
  {
    hide TickBank, Within, Returns, TimerOk;
    var banks' := TickAll(p, banks);
    forall r: nat, b: nat | InRange(p, r, b)
      ensures Within(p, banks'[r][b], now + 1, until) && Returns(p, banks'[r][b])
    {
      TickWithin(p, banks[r][b], now, until);
    }
  }

  lemma LaterWithin(p: Params, banks: Banks, now: int, until: int, later: int)
    requires GridOf(p, banks) && AllWithin(p, banks, now, until) && until <= later
    ensures AllWithin(p, banks, now, later)
  {
    hide Returns;
  }

  // With automatic precharge an open row has its column in the queue.

  ghost predicate HasLoose(q: Queue, bank: nat) { exists i :: Loose(q, i) && q[i].at.bank == bank }

  ghost predicate Awaited(p: Params, q: Queue, s: BankState, bank: nat) {
    !p.openPage && s.state == RowActive && s.countdown == 0 ==> HasLoose(q, bank)
  }

  ghost predicate AllAwaited(p: Params, st: Sched, banks: Banks)
    requires Shaped(p, st) && GridOf(p, banks)
  {
    forall r: nat, b: nat :: InRange(p, r, b) ==> Awaited(p, QueueAt(p, st, r, b), banks[r][b], b)
  }

  lemma AppendLoose(q: Queue, cs: Queue, bank: nat)
    requires HasLoose(q, bank)
    ensures HasLoose(q + cs, bank)
  {
    var i :| Loose(q, i) && q[i].at.bank == bank;
    assert Loose(q + cs, i) && (q + cs)[i] == q[i];
  }

  lemma NoActivateBefore(q: Queue, i: nat)
    requires Paired(q) && i < |q| && !IsColumn(q[i].kind)
    ensures i > 0 ==> q[i - 1].kind != Activate
  {
  }

  /** Taking a packet leaves every other loose column, and an activate leaves its own. */
  lemma RemovedKeepsLoose(q: Queue, i: nat, bank: nat)
    requires Paired(q) && Removable(q, i, false)
    requires HasLoose(q, bank) || (q[i].kind == Activate && bank == q[i].at.bank)
    requires q[i].kind != Activate ==> bank != q[i].at.bank
    ensures HasLoose(Removed(q, i, false), bank)
  {
    hide Removed, FirstOfBank;
    var r := Removed(q, i, false);
    if q[i].kind == Activate && bank == q[i].at.bank {
      assert PairAt(q, i);
      NoActivateBefore(q, i);
      assert Loose(r, i) && r[i] == q[i + 1];
    } else {
      var k :| Loose(q, k) && q[k].at.bank == bank;
      var k' := if k < i then k else k - 1;
      assert r[k'] == q[k];
      assert Loose(r, k');
    }
  }

  lemma TickAwaited(p: Params, q: Queue, s: BankState, bank: nat, now: int)
    requires TimerOk(p, s, now) && Awaited(p, q, s, bank)
    ensures Awaited(p, q, TickBank(p, s), bank)
  {
    hide HasLoose;
  }

  lemma TickedAwaited(p: Params, st: Sched, banks: Banks, now: int)
    requires Shaped(p, st) && GridOf(p, banks) && TimersOk(p, banks, now) && AllAwaited(p, st, banks)
    ensures GridOf(p, TickAll(p, banks)) && AllAwaited(p, st, TickAll(p, banks))
  {
    hide TickBank, Awaited, TimerOk;
    forall r: nat, b: nat | InRange(p, r, b) ensures Awaited(p, QueueAt(p, st, r, b), TickAll(p, banks)[r][b], b) {
      TickAwaited(p, QueueAt(p, st, r, b), banks[r][b], b, now);
    }
  }

  /** A pick keeps the columns of the open rows. */
  lemma TakeAwaited(p: Params, st: Sched, banks: Banks, rank: nat, bank: nat, i: nat, absorb: bool, now: int)
    requires Sane(p) && SchedOk(p, st, banks) && Wellformed(p, st, banks) && TimersOk(p, banks, now)
    requires Eligible(p, st, banks, Take(rank, bank, i, absorb), now) && AllAwaited(p, st, banks)
    ensures Valid(p, st, Take(rank, bank, i, absorb))
    ensures var st', c := Picked(p, st, Take(rank, bank, i, absorb)), QueueAt(p, st, rank, bank)[i];
            GridOf(p, IssueAll(p, banks, c, now)) && AllAwaited(p, st', IssueAll(p, banks, c, now))
  {
    hide SchedOk, Sane, TimersOk, Eligible, IssueBank, BankReady, Removable, Awaited, Removed, Wellformed, Homed,
      Paired, NotStranded;
    SchedShaped(p, st, banks);
    TakeOk(p, st, banks, rank, bank, i, absorb, now);
    var q := QueueAt(p, st, rank, bank);
    var c, st' := q[i], Picked(p, st, Take(rank, bank, i, absorb));
    QueueIsOk(p, st, banks, rank, bank);
    AbsorbOpen(p, st, banks, rank, bank, i, absorb, now);
    forall r: nat, b: nat | InRange(p, r, b)
      ensures Awaited(p, QueueAt(p, st', r, b), IssueAll(p, banks, c, now)[r][b], b)
    {
      assert Awaited(p, QueueAt(p, st, r, b), banks[r][b], b);
      if r == rank && QueueIndex(p, b) == QueueIndex(p, bank) {
        assert QueueAt(p, st', r, b) == Removed(q, i, absorb);
        SameQueueAwaited(p, q, i, absorb, banks[r][b], r, b, c, now);
      } else {
        OtherQueueAwaited(p, QueueAt(p, st, r, b), banks[r][b], r, b, c, now, QueueIndex(p, bank));
      }
    }
  }

  lemma AbsorbOpen(p: Params, st: Sched, banks: Banks, rank: nat, bank: nat, i: nat, absorb: bool, now: int)
    requires Wellformed(p, st, banks) && Eligible(p, st, banks, Take(rank, bank, i, absorb), now)
    ensures absorb ==> p.openPage
  {
    hide Candidate, FirstForRow;
  }

  lemma SameQueueAwaited(p: Params, q: Queue, i: nat, absorb: bool, s: BankState, rank: nat, bank: nat, c: Packet,
      now: int)
    requires Sane(p) && Paired(q) && Removable(q, i, absorb) && c == q[i] && (absorb ==> p.openPage)
             && c.at.rank == rank
    requires Awaited(p, q, s, bank) && InPolicy(p, c.kind) && (c.kind == Activate || IsColumn(c.kind))
    requires bank == c.at.bank ==> BankReady(p, s, c, now)
    ensures Awaited(p, Removed(q, i, absorb), IssueBank(p, s, rank, bank, c, now), bank)
  {
    hide HasLoose, Removed, Paired, Removable;
    if !p.openPage {
      RemovableRange(q, i, absorb);
      if (c.kind == Activate && bank == c.at.bank) || (bank != c.at.bank && HasLoose(q, bank)) {
        RemovedKeepsLoose(q, i, bank);
      }
    }
  }

  lemma OtherQueueAwaited(p: Params, q: Queue, s: BankState, rank: nat, bank: nat, c: Packet, now: int, k: nat)
    requires Sane(p) && Awaited(p, q, s, bank) && (c.kind == Activate || IsColumn(c.kind)) && InPolicy(p, c.kind)
    requires c.at.rank != rank || c.at.bank != bank
    ensures Awaited(p, q, IssueBank(p, s, rank, bank, c, now), bank)
  {
    hide HasLoose;
  }

  lemma PickAwaited(p: Params, st: Sched, banks: Banks, pick: Pick, now: int)
    requires Sane(p) && SchedOk(p, st, banks) && Wellformed(p, st, banks) && TimersOk(p, banks, now)
    requires Eligible(p, st, banks, pick, now) && AllAwaited(p, st, banks)
    ensures Valid(p, st, pick)
    ensures var st', c := Picked(p, st, pick), Command(p, st, pick);
            if c.Some? then GridOf(p, IssueAll(p, banks, c.value, now))
                && AllAwaited(p, st', IssueAll(p, banks, c.value, now))
            else AllAwaited(p, st', banks)
  {
    hide SchedOk, Sane, TimersOk, IssueBank, BankReady, Awaited, Wellformed, Scheduled, Flushed, FirstForRow,
      NothingToDo, Removed;
    SchedShaped(p, st, banks);
    match pick
    case Nothing =>
    case Take(rank, bank, i, absorb) => TakeAwaited(p, st, banks, rank, bank, i, absorb, now);
    case Close(rank, bank) =>
      forall r: nat, b: nat | InRange(p, r, b)
        ensures Awaited(p, QueueAt(p, Picked(p, st, pick), r, b),
                IssueAll(p, banks, Command(p, st, pick).value, now)[r][b], b)
      {
        OpenAwaited(p, QueueAt(p, Picked(p, st, pick), r, b),
            IssueAll(p, banks, Command(p, st, pick).value, now)[r][b], b);
      }
    case RefreshNow =>
      forall r: nat, b: nat | InRange(p, r, b)
        ensures Awaited(p, QueueAt(p, Picked(p, st, pick), r, b),
                IssueAll(p, banks, Command(p, st, pick).value, now)[r][b], b)
      {
        assert Awaited(p, QueueAt(p, st, r, b), banks[r][b], b);
        RefreshAwaited(p, QueueAt(p, st, r, b), banks[r][b], r, b, Command(p, st, pick).value, now);
      }
  }

  lemma OpenAwaited(p: Params, q: Queue, s: BankState, bank: nat)
    requires p.openPage
    ensures Awaited(p, q, s, bank)
  {
  }

  lemma RefreshAwaited(p: Params, q: Queue, s: BankState, rank: nat, bank: nat, c: Packet, now: int)
    requires Awaited(p, q, s, bank) && c.kind == Refresh
    ensures Awaited(p, q, IssueBank(p, s, rank, bank, c, now), bank)
  {
    hide HasLoose;
  }

  // Counters.

  ghost predicate CountersWithin(p: Params, st: Sched)
    requires Shaped(p, st)
  {
    forall r: nat, b: nat :: InRange(p, r, b) ==> st.counters[r][b] <= p.rowAccesses
  }

  lemma PickCounters(p: Params, st: Sched, banks: Banks, pick: Pick, now: int)
    requires Sane(p) && SchedOk(p, st, banks) && Wellformed(p, st, banks) && TimersOk(p, banks, now)
    requires Eligible(p, st, banks, pick, now) && Valid(p, st, pick) && CountersWithin(p, st)
    ensures CountersWithin(p, Picked(p, st, pick))
  {
    hide Sane, SchedOk, TimersOk, IssueAll, BankReady, Eligible, Removed, Removable, QueueInRange;
    if pick.Take? {
      TakeOk(p, st, banks, pick.rank, pick.bank, pick.i, pick.absorb, now);
      RemovableRange(QueueAt(p, st, pick.rank, pick.bank), pick.i, pick.absorb);
      AbsorbCounts(p, st, banks, pick.rank, pick.bank, pick.i, now);
    }
  }

  lemma AbsorbCounts(p: Params, st: Sched, banks: Banks, rank: nat, bank: nat, i: nat, now: int)
    requires Wellformed(p, st, banks) && InRange(p, rank, bank) && i < |QueueAt(p, st, rank, bank)|
    ensures Eligible(p, st, banks, Take(rank, bank, i, true), now) && IsColumn(QueueAt(p, st, rank, bank)[i].kind) ==>
              var at := QueueAt(p, st, rank, bank)[i].at;
                  InRange(p, at.rank, at.bank) && st.counters[at.rank][at.bank] < p.rowAccesses
  {
    hide BankReady, PassedOver, FirstForRow;
    assert QueueInRange(p, QueueAt(p, st, rank, bank));
  }

  // The invariant.

  ghost predicate Live(p: Params, m: Mem) {
    var banks := TickAll(p, m.rows.banks);
    && Shaped(p, m.sched) && GridOf(p, banks) && AllWithin(p, banks, m.now, m.now + Span(p))
       && AllAwaited(p, m.sched, banks)
    && CountersWithin(p, m.sched)
  }

  lemma SplitLive(p: Params, st: Sched, banks: Banks, waiting: seq<Txn>, d: Data)
    requires Placed(p) && Shaped(p, st) && GridOf(p, banks) && AllAwaited(p, st, banks) && CountersWithin(p, st)
    ensures var st' := Split(p, st, waiting, d).0; Shaped(p, st') && AllAwaited(p, st', banks) && CountersWithin(p, st')
  {
    hide HasLoose, HasRoom;
    var i := FirstWithRoom(p, st, waiting, 0);
    if i < |waiting| {
      var t := waiting[i];
      var at, cs := p.place(t.addr), CommandsOf(p, t.isWrite, t.addr, t.id);
      var st' := Enqueued(p, st, t.isWrite, t.addr, t.id);
      forall r: nat, b: nat | InRange(p, r, b) ensures Awaited(p, QueueAt(p, st', r, b), banks[r][b], b) {
        var q := QueueAt(p, st, r, b);
        assert Awaited(p, q, banks[r][b], b);
        if HasLoose(q, b) { AppendLoose(q, cs, b); }
        assert QueueAt(p, st', r, b) == q || QueueAt(p, st', r, b) == q + cs;
      }
    }
  }

  lemma PreparedLive(p: Params, st: Sched, refresh: Option<nat>, banks: Banks)
    requires Shaped(p, st) && GridOf(p, banks) && AllAwaited(p, st, banks) && CountersWithin(p, st)
    requires refresh.Some? ==> refresh.value < p.ranks
    ensures var st' := Prepared(st, refresh); Shaped(p, st') && AllAwaited(p, st', banks) && CountersWithin(p, st')
  {
    hide Awaited;
    var st' := Prepared(st, refresh);
    forall r: nat, b: nat | InRange(p, r, b) ensures Awaited(p, QueueAt(p, st', r, b), banks[r][b], b) {
      assert Awaited(p, QueueAt(p, st, r, b), banks[r][b], b);
    }
  }

  lemma CycleLive(p: Params, m: Mem, refresh: Option<nat>, pick: Pick)
    requires Sane(p) && Placed(p) && Safe(p, m.rows, m.sched, m.now) && CycleAllowed(p, m, refresh, pick) && Live(p, m)
    ensures Live(p, Cycle(p, m, refresh, pick))
  {
    hide Safe, SchedOk, Sane, Picked, Split, ReceiveAll, Prepared, TimersOk, Placed, GridOf, TickAll, IssueAll,
      Command, ReadyCommand, AllWithin, AllAwaited, CountersWithin, Eligible, Prior, Wellformed, Shaped;
    PoppedReady(p, m, refresh, pick);
    var st, banks, now := Prepared(m.sched, refresh), TickAll(p, m.rows.banks), m.now;
    PreparedLive(p, m.sched, refresh, banks);
    PickAwaited(p, st, banks, pick, now);
    PickCounters(p, st, banks, pick, now);
    var c := Command(p, st, pick);
    var banks' := if c.Some? then IssueAll(p, banks, c.value, now) else banks;
    if c.Some? { IssuedNear(p, banks, c.value, now); }
    LaterWithin(p, banks', now, now + Span(p), now + 1 + Span(p));
    TickedWithin(p, banks', now, now + 1 + Span(p));
    TickedAwaited(p, Picked(p, st, pick), banks', now);
    SplitLive(p, Picked(p, st, pick), TickAll(p, banks'), m.waiting, IssueData(p, Move(p, m.data, m.rows.bus), c));
  }

  lemma FreshLive(p: Params, m: Mem)
    requires Sane(p) && Fresh(p, m)
    ensures Live(p, m)
  {
    hide Sane;
    var banks := TickAll(p, m.rows.banks);
    assert TickBank(p, FreshBank) == FreshBank;
    forall r: nat, b: nat | InRange(p, r, b) ensures banks[r][b] == FreshBank {}
  }

  lemma {:induction false} RunLive(p: Params, m: Mem, es: seq<Event>, z: Mem)
    requires Sane(p) && Placed(p) && Consistent(p, m) && Live(p, m) && Run(p, m, es, z)
    ensures Live(p, z) && Consistent(p, z)
    decreases |es|
  {
    hide Safe, SpacingOk, WindowsOk, OrderOk, ReadPipesOk, ReadsOk, CrossOk, TracesOk, CycleAllowed, Cycle, Sane,
      Placed, AllWithin, AllAwaited, CountersWithin;
    if es != [] {
      StepConsistent(p, m, es[0]);
      if es[0].Clock? { CycleLive(p, m, es[0].refresh, es[0].pick); }
      RunLive(p, Next(p, m, es[0]), es[1..], z);
    }
  }
}
