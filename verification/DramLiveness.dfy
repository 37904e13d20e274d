/**
 Everything accepted is issued.  Every cycle but an idle one uses up some of the work that is left, and an idle
 one is followed by another only while a horizon of the banks is still ahead.
 */
module DramLiveness {
  import opened Arithmetic
  import opened Basics
  import opened DramBanks
  import opened DramQueues
  import opened DramScheduling
  import opened DramSchedulerSteps
  import opened DramPipes
  import opened DramRuns
  import opened DramSafety
  import opened DramSpacing
  import opened DramWindows
  import opened DramOrder
  import opened DramData
  import opened DramReads
  import opened DramCrossRank
  import opened DramTheorems
  import opened DramProgress
  import opened DramWork

  // When nothing is picked.

  /** Every horizon of the banks is behind, and no countdown runs. */
  ghost predicate Passed(p: Params, st: Sched, banks: Banks, now: int)
    requires Shaped(p, st) && GridOf(p, banks)
  {
    AllWithin(p, banks, now, now) && forall r: nat :: r < p.ranks ==> |st.faw[r]| < 4
  }

  /** A scheduler and a table as they are met, with the horizons behind. */
  ghost predicate Calm(p: Params, st: Sched, banks: Banks, now: int) {
    && Sane(p) && p.tRP >= 1 && SchedOk(p, st, banks) && Wellformed(p, st, banks) && TimersOk(p, banks, now)
    && AllAwaited(p, st, banks) && CountersWithin(p, st) && Passed(p, st, banks, now)
  }

  lemma CalmBank(p: Params, st: Sched, banks: Banks, now: int, rank: nat, bank: nat)
    requires Calm(p, st, banks, now) && InRange(p, rank, bank)
    ensures var s, q := banks[rank][bank], QueueAt(p, st, rank, bank);
            && Within(p, s, now, now) && TimerOk(p, s, now) && s.countdown == 0 && s.state != Precharging
            && QueueOk(p, q, rank, QueueIndex(p, bank), banks[rank], st.counters[rank]) && Awaited(p, q, s, bank)
            && QueueInRange(p, q) && st.counters[rank][bank] <= p.rowAccesses && |st.faw[rank]| < 4
               && p.rowAccesses >= 1
  {
    hide SchedOk, QueueOk, Wellformed;
    QueueIsOk(p, st, banks, rank, bank);
  }

  /** A loose column can go when its horizons are behind. */
  lemma LooseGoes(p: Params, st: Sched, banks: Banks, now: int, rank: nat, bank: nat, i: nat)
    requires Calm(p, st, banks, now) && InRange(p, rank, bank) && Loose(QueueAt(p, st, rank, bank), i)
    ensures Candidate(p, st, banks, rank, bank, i, now)
    ensures var c := QueueAt(p, st, rank, bank)[i];
            && c.at.rank == rank && c.at.bank < p.banks && OpenAt(banks[rank][c.at.bank], c.at.row)
            && Issuable(p, st, banks, c, now) && FirstOfBank(QueueAt(p, st, rank, bank), i)
  {
    hide Calm;
    CalmBank(p, st, banks, now, rank, bank);
    CalmWellformed(p, st, banks, now);
    var q := QueueAt(p, st, rank, bank);
    assert HomedPacket(p, q[i], rank, QueueIndex(p, bank));
    CalmBank(p, st, banks, now, rank, q[i].at.bank);
    assert p.perBank ==> HomedPacket(p, q[0], rank, QueueIndex(p, bank));
  }

  lemma CalmWellformed(p: Params, st: Sched, banks: Banks, now: int)
    requires Calm(p, st, banks, now)
    ensures Wellformed(p, st, banks)
  {
  }

  lemma PairPlaces(q: Queue, i: int)
    requires Paired(q)
    ensures 0 < i < |q| && q[i - 1].kind == Activate ==> q[i - 1].at == q[i].at && IsColumn(q[i].kind)
    ensures 0 <= i < |q| && q[i].kind == Activate ==> PairAt(q, i)
  {
    if 0 < i < |q| && q[i - 1].kind == Activate { assert PairAt(q, i - 1); }
  }

  /** The first packet of an open row is its loose column, or an activate followed by a column. */
  lemma FirstOfRowIs(q: Queue, bank: nat, row: nat)
    requires Paired(q) && (forall i :: 0 <= i < |q| ==> q[i].kind == Activate || IsColumn(q[i].kind))
    ensures var i := FirstForRow(q, bank, row, 0);
            i < |q| ==> if q[i].kind == Activate then PairAt(q, i) else Loose(q, i)
  {
    hide Paired;
    PairPlaces(q, FirstForRow(q, bank, row, 0));
  }

  /** The first packet for an open row can go, or the row can be closed. */
  lemma RowGoes(p: Params, st: Sched, banks: Banks, now: int, rank: nat, bank: nat)
    requires Calm(p, st, banks, now) && InRange(p, rank, bank) && Wellformed(p, st, banks)
    requires banks[rank][bank].state == RowActive
    ensures var q := QueueAt(p, st, rank, bank);
            var i := FirstForRow(q, bank, banks[rank][bank].row, 0);
            if i < |q| && q[i].kind != Activate then InRange(p, q[i].at.rank, q[i].at.bank)
                && Issuable(p, st, banks, q[i], now)
            else p.openPage && now >= banks[rank][bank].nextPrecharge
  {
    hide Calm, Issuable, FirstOfBank, Wellformed, QueueOk, Candidate, QueueInRange;
    CalmShape(p, st, banks, now);
    CalmBank(p, st, banks, now, rank, bank);
    var q, s := QueueAt(p, st, rank, bank), banks[rank][bank];
    QueueFacts(p, q, rank, QueueIndex(p, bank), banks[rank], st.counters[rank]);
    FirstOfRowIs(q, bank, s.row);
    var i := FirstForRow(q, bank, s.row, 0);
    if i < |q| && q[i].kind != Activate {
      LooseGoes(p, st, banks, now, rank, bank, i);
    } else if !p.openPage {
      var k :| Loose(q, k) && q[k].at.bank == bank;
      LooseGoes(p, st, banks, now, rank, bank, k);
      FirstIsLoose(q, bank, s.row, k);
    }
  }

  /** With a refresh waiting there is something to do. */
  lemma RefreshGoes(p: Params, st: Sched, banks: Banks, now: int)
    requires Calm(p, st, banks, now) && st.refresh.Some? && Wellformed(p, st, banks)
    ensures RefreshPick(p, st, banks, now) != Nothing
  {
    hide Calm, Issuable, FirstForRow, Wellformed, QueueOk, QueueInRange, Awaited;
    CalmShape(p, st, banks, now);
    var rank := st.refresh.value;
    var b := FirstBusy(p, banks, rank, now, 0);
    if b < p.banks {
      CalmBank(p, st, banks, now, rank, b);
      RowGoes(p, st, banks, now, rank, b);
    }
  }

  lemma FirstIsLoose(q: Queue, bank: nat, row: nat, k: nat)
    requires Loose(q, k) && FirstOfBank(q, k) && q[k].at.bank == bank && q[k].at.row == row
    ensures FirstForRow(q, bank, row, 0) == k
  {
  }

  /** A column that has nothing for its row before it can go once its horizons are behind. */
  lemma ColumnGoes(p: Params, st: Sched, banks: Banks, now: int, rank: nat, bank: nat, i: nat)
    requires Calm(p, st, banks, now) && InRange(p, rank, bank) && i < |QueueAt(p, st, rank, bank)| && p.openPage
    requires var c := QueueAt(p, st, rank, bank)[i];
             && IsColumn(c.kind) && c.at.bank == bank && banks[rank][bank].state == RowActive
             && c.at.row == banks[rank][bank].row && st.counters[rank][bank] < p.rowAccesses
    requires !Depends(QueueAt(p, st, rank, bank), i)
    ensures Wellformed(p, st, banks) && Candidate(p, st, banks, rank, bank, i, now)
  {
    hide Calm, Depends;
    CalmWellformed(p, st, banks, now);
    CalmBank(p, st, banks, now, rank, bank);
    assert HomedPacket(p, QueueAt(p, st, rank, bank)[i], rank, QueueIndex(p, bank));
  }

  /** With no refresh waiting, a row left open is closed or used. */
  lemma OpenGoes(p: Params, st: Sched, banks: Banks, now: int, rank: nat, bank: nat)
    requires Calm(p, st, banks, now) && InRange(p, rank, bank) && st.refresh == None
    requires Wellformed(p, st, banks) && banks[rank][bank].state == RowActive
    ensures !NothingToDo(p, st, banks, now)
  {
    hide Calm, Candidate, Wellformed, Issuable, QueueOk;
    CalmShape(p, st, banks, now);
    var q, s := QueueAt(p, st, rank, bank), banks[rank][bank];
    CalmBank(p, st, banks, now, rank, bank);
    if p.openPage {
      var i := FirstForRow(q, bank, s.row, 0);
      if i < |q| && st.counters[rank][bank] < p.rowAccesses {
        QueueFacts(p, q, rank, QueueIndex(p, bank), banks[rank], st.counters[rank]);
        FirstOfRowIs(q, bank, s.row);
        ColumnGoes(p, st, banks, now, rank, bank, if q[i].kind == Activate then i + 1 else i);
      }
    } else {
      var k :| Loose(q, k) && q[k].at.bank == bank;
      LooseGoes(p, st, banks, now, rank, bank, k);
    }
  }

  lemma QueueFacts(p: Params, q: Queue, rank: nat, k: nat, row: seq<BankState>, counters: seq<nat>)
    requires QueueOk(p, q, rank, k, row, counters)
    ensures Paired(q) && forall i :: 0 <= i < |q| ==> q[i].kind == Activate || IsColumn(q[i].kind)
  {
    forall i | 0 <= i < |q|
      ensures q[i].kind == Activate || IsColumn(q[i].kind)
    {
      assert HomedPacket(p, q[i], rank, k);
    }
  }

  /** With every row of a rank closed, the head of a queue can go. */
  lemma HeadGoes(p: Params, st: Sched, banks: Banks, now: int, rank: nat, bank: nat)
    requires Calm(p, st, banks, now) && InRange(p, rank, bank) && QueueAt(p, st, rank, bank) != []
    requires GridOf(p, banks) && forall b: nat :: b < p.banks ==> banks[rank][b].state != RowActive
    ensures Wellformed(p, st, banks) && Candidate(p, st, banks, rank, bank, 0, now)
  {
    hide Calm;
    CalmWellformed(p, st, banks, now);
    var q := QueueAt(p, st, rank, bank);
    CalmBank(p, st, banks, now, rank, bank);
    assert HomedPacket(p, q[0], rank, QueueIndex(p, bank));
    CalmBank(p, st, banks, now, rank, q[0].at.bank);
    assert !Loose(q, 0);
  }

  /** At rest: no refresh waits, no row is open, and no command is queued. */
  ghost predicate AtRest(p: Params, st: Sched, banks: Banks)
    requires Shaped(p, st) && GridOf(p, banks)
  {
    && st.refresh == None
    && forall r: nat, b: nat :: InRange(p, r, b) ==> QueueAt(p, st, r, b) == [] && banks[r][b].state != RowActive
  }

  /** When every horizon is behind, nothing is picked only at rest. */
  lemma IdleOnlyAtRest(p: Params, st: Sched, banks: Banks, now: int)
    requires Wellformed(p, st, banks) && Calm(p, st, banks, now) && Allowed(p, st, banks, Nothing, now)
    ensures AtRest(p, st, banks)
  {
    hide Calm, Wellformed, RefreshPick, NothingToDo;
    if st.refresh.Some? { RefreshGoes(p, st, banks, now); }
    CalmShape(p, st, banks, now);
    forall r: nat, b: nat | InRange(p, r, b) ensures banks[r][b].state != RowActive {
      if banks[r][b].state == RowActive { OpenGoes(p, st, banks, now, r, b); }
    }
    forall r: nat, b: nat | InRange(p, r, b) ensures QueueAt(p, st, r, b) == [] {
      if QueueAt(p, st, r, b) != [] {
        HeadGoes(p, st, banks, now, r, b);
        NoCandidate(p, st, banks, now, r, b);
      }
    }
  }

  lemma CalmShape(p: Params, st: Sched, banks: Banks, now: int)
    requires Calm(p, st, banks, now)
    ensures Shaped(p, st) && GridOf(p, banks)
  {
  }

  lemma NoCandidate(p: Params, st: Sched, banks: Banks, now: int, rank: nat, bank: nat)
    requires Wellformed(p, st, banks) && NothingToDo(p, st, banks, now) && InRange(p, rank, bank) && st.refresh == None
    ensures !Candidate(p, st, banks, rank, bank, 0, now)
  {
    hide Candidate, FirstForRow;
  }

  // One cycle.

  ghost function Left(p: Params, m: Mem): nat { Work(m.sched, TickAll(p, m.rows.banks), m.waiting) }

  /** Every horizon, and every window of four activates, is over by then. */
  ghost predicate Quiet(p: Params, m: Mem, until: int) {
    var banks := TickAll(p, m.rows.banks);
    && GridOf(p, banks) && AllWithin(p, banks, m.now, until)
    && forall i :: 0 <= i < |m.past.log| ==> m.past.log[i].time + p.tFAW <= until
  }

  lemma SoonQuiet(p: Params, m: Mem)
    requires Sane(p) && Live(p, m) && LogOk(p, m.past.log, m.now)
    ensures Quiet(p, m, m.now + Span(p))
  {
    hide AllWithin, AllAwaited, CountersWithin, Sane, Span;
    DelaysWithin(p);
  }

  lemma {:induction false} ActivationsBefore(log: seq<Issued>, rank: nat, bound: int)
    requires forall i :: 0 <= i < |log| ==> log[i].time <= bound
    ensures AllBefore(Activations(log, rank), bound)
  {
    if log != [] { ActivationsBefore(log[..|log| - 1], rank, bound); }
  }

  lemma AgesHead(tFAW: int, window: seq<int>, recent: seq<int>, now: int)
    requires Ages(tFAW, window, recent, now) && window != []
    ensures |recent| == |window| && recent[0] + tFAW >= now
  {
  }

  lemma WindowEmpty(tFAW: int, window: seq<int>, times: seq<int>, now: int)
    requires WindowOk(tFAW, window, times, now) && AllBefore(times, now - 1 - tFAW)
    ensures window == []
  {
    hide Ages, Increasing;
    if window != [] { AgesHead(tFAW, window, times[|times| - |window|..], now); }
  }

  lemma QuietWindows(p: Params, m: Mem, refresh: Option<nat>, until: int)
    requires Shaped(p, m.sched) && WindowsOk(p, m.sched.faw, m.past.log, m.now) && Quiet(p, m, until) && until <= m.now
    ensures forall r: nat :: r < p.ranks ==> Prepared(m.sched, refresh).faw[r] == []
  {
    hide WindowOk, FourApart, TickWindow, AllWithin, Activations, AllBefore;
    forall r: nat | r < p.ranks ensures Prepared(m.sched, refresh).faw[r] == [] {
      var times := Activations(m.past.log, r);
      WindowTick(p.tFAW, m.sched.faw[r], times, m.now);
      ActivationsBefore(m.past.log, r, m.now - p.tFAW);
      WindowEmpty(p.tFAW, TickWindow(m.sched.faw[r]), times, m.now + 1);
    }
  }

  /** When the quiet comes, what pop finds is calm. */
  lemma QuietIsCalm(p: Params, m: Mem, refresh: Option<nat>, pick: Pick, until: int)
    requires Sane(p) && p.tRP >= 1 && Safe(p, m.rows, m.sched, m.now) && CycleAllowed(p, m, refresh, pick) && Live(p, m)
    requires WindowsOk(p, m.sched.faw, m.past.log, m.now) && Quiet(p, m, until) && until <= m.now
    ensures Calm(p, Prepared(m.sched, refresh), TickAll(p, m.rows.banks), m.now)
  {
    hide Safe, SchedOk, Sane, Picked, TimersOk, Placed, TickAll, IssueAll, Command, ReadyCommand, AllWithin,
      AllAwaited, CountersWithin, Eligible, Prior, Wellformed, WindowsOk, Prepared;
    var st, banks := Prepared(m.sched, refresh), TickAll(p, m.rows.banks);
    PoppedReady(p, m, refresh, pick);
    PreparedLive(p, m.sched, refresh, banks);
    QuietWindows(p, m, refresh, until);
    LaterWithin(p, banks, m.now, until, m.now);
  }

  lemma EmptyHasRoom(p: Params, st: Sched, waiting: seq<Txn>)
    requires Placed(p) && Shaped(p, st) && p.queueDepth >= 2 && waiting != []
    requires forall r: nat, b: nat :: InRange(p, r, b) ==> QueueAt(p, st, r, b) == []
    ensures FirstWithRoom(p, st, waiting, 0) == 0
  {
  }

  /** The work that is left after a cycle, from the work before it. */
  lemma CycleWork(p: Params, m: Mem, refresh: Option<nat>, pick: Pick)
    requires Sane(p) && Placed(p) && Safe(p, m.rows, m.sched, m.now) && CycleAllowed(p, m, refresh, pick)
    ensures Shaped(p, Prepared(m.sched, refresh))
    ensures Left(p, Cycle(p, m, refresh, pick)) <= Left(p, m) + IsDue(refresh)
    ensures pick != Nothing ==> Left(p, Cycle(p, m, refresh, pick)) < Left(p, m) + IsDue(refresh)
    ensures pick == Nothing && FirstWithRoom(p, Prepared(m.sched, refresh), m.waiting, 0) < |m.waiting| ==>
              Left(p, Cycle(p, m, refresh, pick)) < Left(p, m) + IsDue(refresh)
  {
    hide Safe, SchedOk, Sane, Picked, Split, ReceiveAll, TimersOk, Placed, TickAll, IssueAll, Command, ReadyCommand,
      Eligible, Prior, Wellformed, Work, FirstWithRoom, Prepared, Shaped, GridOf;
    PoppedReady(p, m, refresh, pick);
    var st, banks, now := Prepared(m.sched, refresh), TickAll(p, m.rows.banks), m.now;
    PreparedWork(m.sched, refresh, banks, m.waiting);
    PickWorks(p, st, banks, pick, m.waiting, now);
    NothingPicked(p, st);
    var c := Command(p, st, pick);
    var banks' := IssuedBanks(p, banks, c, now);
    TickWorks(p, Picked(p, st, pick), banks', m.waiting);
    SplitWorks(p, Picked(p, st, pick), TickAll(p, banks'), m.waiting, IssueData(p, Move(p, m.data, m.rows.bus), c));
  }

  lemma NothingPicked(p: Params, st: Sched)
    requires Shaped(p, st)
    ensures Valid(p, st, Nothing) && Picked(p, st, Nothing) == st && Command(p, st, Nothing) == None
  {
  }

  lemma PreparedWork(st: Sched, refresh: Option<nat>, banks: Banks, waiting: seq<Txn>)
    ensures Work(Prepared(st, refresh), banks, waiting) <= Work(st, banks, waiting) + IsDue(refresh)
  {
    hide Total;
  }

  lemma TickWorks(p: Params, st: Sched, banks: Banks, waiting: seq<Txn>)
    requires Sane(p) && GridOf(p, banks)
    ensures Work(st, TickAll(p, banks), waiting) <= Work(st, banks, waiting)
  {
    hide Total, TickAll;
    TickOpens(p, banks);
  }

  /** An idle cycle brings the quiet nearer. */
  lemma IdleQuiet(p: Params, m: Mem, refresh: Option<nat>, until: int)
    requires Sane(p) && Placed(p) && Safe(p, m.rows, m.sched, m.now) && CycleAllowed(p, m, refresh, Nothing)
    requires Quiet(p, m, until) && m.now < until
    ensures Quiet(p, Cycle(p, m, refresh, Nothing), until)
  {
    hide Safe, SchedOk, Sane, Split, ReceiveAll, TimersOk, Placed, TickAll, IssueAll, ReadyCommand, Eligible, Prior,
      Wellformed, Prepared, Shaped, GridOf, AllWithin;
    PoppedReady(p, m, refresh, Nothing);
    TickedWithin(p, TickAll(p, m.rows.banks), m.now, until);
  }

  /** With the quiet there, an idle cycle takes on a waiting transaction, or nothing is left. */
  lemma QuietWork(p: Params, m: Mem, refresh: Option<nat>, until: int)
    requires Sane(p) && Placed(p) && p.tRP >= 1 && p.queueDepth >= 2 && Safe(p, m.rows, m.sched, m.now) && Live(p, m)
    requires CycleAllowed(p, m, refresh, Nothing) && WindowsOk(p, m.sched.faw, m.past.log, m.now)
    requires Quiet(p, m, until) && until <= m.now
    ensures Left(p, Cycle(p, m, refresh, Nothing)) < Left(p, m) + IsDue(refresh) || Left(p, m) == 0
  {
    hide Safe, SchedOk, Sane, Split, ReceiveAll, Placed, TickAll, Calm, Cycle, Eligible, Prior, Wellformed, GridOf,
      WindowsOk, Quiet, Live, Work, HasRoom;
    var st, banks := Prepared(m.sched, refresh), TickAll(p, m.rows.banks);
    QuietIsCalm(p, m, refresh, Nothing, until);
    IdleOnlyAtRest(p, st, banks, m.now);
    CycleWork(p, m, refresh, Nothing);
    CalmShape(p, st, banks, m.now);
    if m.waiting != [] {
      EmptyHasRoom(p, st, m.waiting);
    } else {
      RestLeft(p, m, refresh);
    }
  }

  lemma RestLeft(p: Params, m: Mem, refresh: Option<nat>)
    requires Sane(p) && m.waiting == []
    requires var st, banks := Prepared(m.sched, refresh), TickAll(p, m.rows.banks);
             Shaped(p, st) && GridOf(p, banks) && AtRest(p, st, banks)
    ensures Left(p, m) == 0
  {
    hide Total, TickAll, Sane;
    SaneBanks(p);
    RestWork(p, Prepared(m.sched, refresh), TickAll(p, m.rows.banks));
  }

  lemma SaneBanks(p: Params)
    requires Sane(p)
    ensures p.banks >= 1
  {
  }

  /** Every cycle leaves less to do, or is idle and brings the quiet nearer. */
  lemma StepWork(p: Params, m: Mem, refresh: Option<nat>, pick: Pick, until: int)
    requires Sane(p) && Placed(p) && p.tRP >= 1 && p.queueDepth >= 2 && Consistent(p, m) && Live(p, m)
    requires CycleAllowed(p, m, refresh, pick) && Quiet(p, m, until)
    ensures var m' := Cycle(p, m, refresh, pick);
            && Left(p, m') <= Left(p, m) + IsDue(refresh)
            && (Left(p, m') < Left(p, m) + IsDue(refresh) || Left(p, m) == 0 || (m.now < until && Quiet(p, m', until)))
  {
    hide Safe, SpacingOk, WindowsOk, OrderOk, ReadPipesOk, ReadsOk, CrossOk, TracesOk, Sane, Placed, Live, Quiet, Left,
      Cycle, CycleAllowed;
    CycleWork(p, m, refresh, pick);
    if pick == Nothing {
      if m.now < until { IdleQuiet(p, m, refresh, until); } else { QuietWork(p, m, refresh, until); }
    }
  }

  // A run without arrivals.

  ghost predicate NoArrivals(es: seq<Event>) { forall i :: 0 <= i < |es| ==> es[i].Clock? }

  /** How many refreshes come due in a run. */
  ghost function Due(es: seq<Event>): nat {
    if es == [] then 0 else (if es[0].Clock? then IsDue(es[0].refresh) else 0) + Due(es[1..])
  }

  lemma TimesLess(a: nat, b: nat, n: nat)
    requires a <= b
    ensures Times(a, n) <= Times(b, n) && (a < b ==> Times(a, n) + n <= Times(b, n))
  {
    hide Times;
    if a < b {
      TimesNext(a, n);
      TimesMonotone(a + 1, b, n);
    }
  }

  lemma {:induction false} TimesMonotone(a: nat, b: nat, n: nat)
    requires a <= b
    ensures Times(a, n) <= Times(b, n)
    decreases b
  {
    hide Times;
    if a < b {
      TimesMonotone(a, b - 1, n);
      TimesNext(b - 1, n);
    }
  }

  lemma {:induction false} Drains(p: Params, m: Mem, es: seq<Event>, z: Mem, until: int) returns (i: nat, y: Mem)
    requires Sane(p) && Placed(p) && p.tRP >= 1 && p.queueDepth >= 2 && Consistent(p, m) && Live(p, m)
    requires Run(p, m, es, z) && NoArrivals(es) && Quiet(p, m, until)
    requires |es| >= Times(Left(p, m) + Due(es), Span(p) + 1) + Max(0, until - m.now)
    ensures i <= |es| && Run(p, m, es[..i], y) && Run(p, y, es[i..], z) && Left(p, y) == 0
    decreases |es|
  {
    hide Sane, Placed, Consistent, Live, Quiet, Left, Cycle, CycleAllowed, Times, Span;
    if Left(p, m) == 0 {
      i, y := 0, m;
      assert es[..0] == [] && es[0..] == es;
    } else {
      var n := Left(p, m) + Due(es);
      TimesLess(0, n, Span(p) + 1);
      var m' := Next(p, m, es[0]);
      StepWork(p, m, es[0].refresh, es[0].pick, until);
      CycleBack(p, m, es[0].refresh, es[0].pick);
      RunLive(p, m, es[..1], m');
      var less := Left(p, m') + Due(es[1..]) < n;
      ConsistentLog(p, m');
      SoonQuiet(p, m');
      TimesLess(Left(p, m') + Due(es[1..]), n, Span(p) + 1);
      i, y := Drains(p, m', es[1..], z, if less then m'.now + Span(p) else until);
      assert es[1..][..i] == es[..i + 1][1..] && es[1..][i..] == es[i + 1..];
      i := i + 1;
    }
  }

  lemma ConsistentLog(p: Params, m: Mem)
    requires Consistent(p, m)
    ensures LogOk(p, m.past.log, m.now)
  {
    hide Safe, WindowsOk, OrderOk, ReadPipesOk, ReadsOk, CrossOk, TracesOk, LogOk, Horizons, Spaced;
  }

  lemma {:induction false} ClocksKeep(p: Params, m: Mem, es: seq<Event>, z: Mem)
    requires Placed(p) && Run(p, m, es, z) && NoArrivals(es)
    ensures m.past.log <= z.past.log && z.past.accepted == m.past.accepted && z.now == m.now + |es|
    decreases |es|
  {
    hide Placed, Cycle, CycleAllowed;
    if es != [] {
      CycleBack(p, m, es[0].refresh, es[0].pick);
      ClocksKeep(p, Next(p, m, es[0]), es[1..], z);
    }
  }

  // What is issued.

  /** The column command of a transaction is in the log. */
  ghost predicate ColumnIssued(p: Params, log: seq<Issued>, t: Txn) {
    exists k ::
        0 <= k < |log| && IsColumn(log[k].cmd.kind) && log[k].cmd.txn == t.id && log[k].cmd.at == p.place(t.addr)
  }

  lemma {:induction false} IssuedFrom(log: seq<Issued>, at: Place, id: nat) returns (k: nat)
    requires id in IssuedColumns(log, at)
    ensures k < |log| && IsColumn(log[k].cmd.kind) && log[k].cmd.txn == id && log[k].cmd.at == at
  {
    var n := |log| - 1;
    if id in IssuedColumns(log[..n], at) { k := IssuedFrom(log[..n], at, id); } else { k := n; }
  }

  lemma {:induction false} TxnCounted(p: Params, ts: seq<Txn>, i: nat)
    requires i < |ts|
    ensures ts[i].id in TxnsAt(p, ts, p.place(ts[i].addr))
  {
    if i < |ts| - 1 { TxnCounted(p, ts[..|ts| - 1], i); }
  }

  /** With no work left, every accepted transaction has been issued. */
  lemma DoneIssued(p: Params, y: Mem, t: Txn)
    requires Sane(p) && OrderOk(p, y.sched, y.waiting, y.past) && Left(p, y) == 0 && t in y.past.accepted
    ensures ColumnIssued(p, y.past.log, t)
  {
    hide Work, IssuedColumns, TxnsAt, TickAll;
    WorkDone(p, y.sched, TickAll(p, y.rows.banks), y.waiting);
    var i :| 0 <= i < |y.past.accepted| && y.past.accepted[i] == t;
    var at := p.place(t.addr);
    TxnCounted(p, y.past.accepted, i);
    assert InOrder(p, y.sched, y.waiting, y.past, at);
    NoTxns(p, [], at);
    var k := IssuedFrom(y.past.log, at, t.id);
  }

  // Refreshes.

  ghost predicate RefreshIssued(log: seq<Issued>, from: nat, rank: nat) {
    exists k :: from <= k < |log| && log[k].cmd.kind == Refresh && log[k].cmd.at.rank == rank
  }

  /** A waiting refresh waits until it is issued. */
  lemma RefreshWaits(p: Params, m: Mem, pick: Pick, rank: nat)
    requires Placed(p) && CycleAllowed(p, m, None, pick) && m.sched.refresh == Some(rank)
    ensures var m' := Cycle(p, m, None, pick);
            m'.sched.refresh == Some(rank) || RefreshIssued(m'.past.log, |m.past.log|, rank)
  {
    hide Placed, TickAll, IssueAll, ReceiveAll, Eligible, Prior, Removed, FirstWithRoom;
    var m' := Cycle(p, m, None, pick);
    if pick == RefreshNow {
      assert m'.past.log[|m.past.log|].cmd.kind == Refresh;
    }
  }

  lemma {:induction false} RefreshComes(p: Params, m: Mem, es: seq<Event>, z: Mem, rank: nat)
    requires Placed(p) && Run(p, m, es, z) && NoArrivals(es) && Due(es) == 0 && m.sched.refresh == Some(rank)
    ensures z.sched.refresh == Some(rank) || RefreshIssued(z.past.log, |m.past.log|, rank)
    decreases |es|
  {
    hide Placed, Cycle, CycleAllowed;
    if es != [] {
      var m' := Next(p, m, es[0]);
      CycleBack(p, m, None, es[0].pick);
      RefreshWaits(p, m, es[0].pick, rank);
      ClocksKeep(p, m', es[1..], z);
      if m'.sched.refresh == Some(rank) { RefreshComes(p, m', es[1..], z, rank); }
    }
  }

  // The theorems.

  lemma ReachedLive(p: Params, start: Mem, es: seq<Event>, m: Mem)
    requires Sane(p) && Reaches(p, start, es, m)
    ensures Placed(p) && Consistent(p, m) && Live(p, m)
  {
    hide Consistent, Live, Run, Fresh, Sane, Placed;
    FreshConsistent(p, start);
    FreshLive(p, start);
    RunLive(p, start, es, m);
  }

  lemma OnlyRefreshRefreshes(p: Params, st: Sched, banks: Banks, pick: Pick, now: int)
    requires SchedOk(p, st, banks) && Wellformed(p, st, banks) && Valid(p, st, pick)
             && Eligible(p, st, banks, pick, now)
    requires Command(p, st, pick).Some? && Command(p, st, pick).value.kind == Refresh
    ensures st.refresh.Some? && AllReadyForRefresh(p, banks, st.refresh.value, now)
  {
    hide SchedOk, Wellformed, NothingToDo, Scheduled, Flushed, FirstForRow, QueueOk, AllReadyForRefresh;
    SchedShaped(p, st, banks);
    if pick.Take? {
      QueueIsOk(p, st, banks, pick.rank, pick.bank);
      QueueFacts(p, QueueAt(p, st, pick.rank, pick.bank), pick.rank, QueueIndex(p, pick.bank), banks[pick.rank],
          st.counters[pick.rank]);
    }
  }

  /**
   With a refresh waiting, the refresh is what the cycle issues exactly when no row of its rank is open and every
   bank of it may be activated.
   */
  lemma RefreshGoesFirst(p: Params, start: Mem, es: seq<Event>, m: Mem, refresh: Option<nat>, pick: Pick, rank: nat)
    requires Sane(p) && Reaches(p, start, es, m) && CycleAllowed(p, m, refresh, pick)
    requires (if refresh.Some? then refresh else m.sched.refresh) == Some(rank)
    ensures rank < p.ranks && GridOf(p, TickAll(p, m.rows.banks))
    ensures Cycle(p, m, refresh, pick).past.log == m.past.log
            + [Issued(m.now, Packet(Refresh, 0, Place(rank, 0, 0), 0))]
            <==> forall b: nat :: b < p.banks ==>
                   var s := TickAll(p, m.rows.banks)[rank][b]; s.state != RowActive && s.nextActivate <= m.now
  {
    hide Run, Fresh, Sane, TickAll, IssueAll, ReceiveAll, Eligible, Ordinary, RefreshPick, Cycle, Placed, Wellformed,
      SpacingOk, WindowsOk, OrderOk, ReadPipesOk, ReadsOk, CrossOk, TracesOk, Linked, SchedOk, Picked;
    Reached(p, start, es, m);
    PoppedReady(p, m, refresh, pick);
    var st, banks, log' := Prepared(m.sched, refresh), TickAll(p, m.rows.banks), Cycle(p, m, refresh, pick).past.log;
    var e := Issued(m.now, Packet(Refresh, 0, Place(rank, 0, 0), 0));
    CycleBack(p, m, refresh, pick);
    RefreshEligible(p, st, banks, m.now);
    if log' == m.past.log + [e] {
      assert log'[|m.past.log|] == e;
      OnlyRefreshRefreshes(p, st, banks, pick, m.now);
    }
  }

  /** After this many cycles everything accepted has been issued, if k refreshes come due meanwhile. */
  ghost function Bound(p: Params, m: Mem, k: nat): nat { Times(Left(p, m) + k, Span(p) + 1) + Span(p) }

  /** Once arrivals stop, the column command of every accepted transaction is issued. */
  lemma EveryTransactionIssued(p: Params, start: Mem, past: seq<Event>, m: Mem, es: seq<Event>, z: Mem, t: Txn)
    requires Sane(p) && p.tRP >= 1 && p.queueDepth >= 2 && Reaches(p, start, past, m)
    requires Run(p, m, es, z) && NoArrivals(es) && |es| >= Bound(p, m, Due(es)) && t in m.past.accepted
    ensures ColumnIssued(p, z.past.log, t)
  {
    hide Reaches, Sane, Run, Live, Placed, Due, Span, Left, Times, Quiet, Safe, SpacingOk, WindowsOk, OrderOk,
      ReadPipesOk, ReadsOk, CrossOk, TracesOk;
    var i, y := DrainsFrom(p, start, past, m, es, z);
    DoneIssued(p, y, t);
  }

  lemma DrainsFrom(p: Params, start: Mem, past: seq<Event>, m: Mem, es: seq<Event>, z: Mem) returns (i: nat, y: Mem)
    requires Sane(p) && p.tRP >= 1 && p.queueDepth >= 2 && Reaches(p, start, past, m)
    requires Run(p, m, es, z) && NoArrivals(es) && |es| >= Bound(p, m, Due(es))
    ensures i <= |es| && Placed(p) && Run(p, m, es[..i], y) && Left(p, y) == 0 && Consistent(p, y)
    ensures m.past.accepted == y.past.accepted && m.past.log <= y.past.log <= z.past.log
  {
    hide Reaches, Sane, Run, Consistent, Live, Placed, Due, Span, Left, Times, Quiet;
    ReachedLive(p, start, past, m);
    ConsistentLog(p, m);
    SoonQuiet(p, m);
    i, y := Drains(p, m, es, z, m.now + Span(p));
    RunLive(p, m, es[..i], y);
    ClocksKeep(p, m, es[..i], y);
    ClocksKeep(p, y, es[i..], z);
  }

  /** A waiting refresh is issued, if no other comes due before it. */
  lemma WaitingRefreshIssued(p: Params, start: Mem, past: seq<Event>, m: Mem, es: seq<Event>, z: Mem, rank: nat)
    requires Sane(p) && p.tRP >= 1 && p.queueDepth >= 2 && Reaches(p, start, past, m)
    requires Run(p, m, es, z) && NoArrivals(es) && Due(es) == 0 && |es| >= Bound(p, m, 0)
             && m.sched.refresh == Some(rank)
    ensures RefreshIssued(z.past.log, |m.past.log|, rank)
  {
    hide Reaches, Sane, Run, Live, Placed, Span, Left, Times, Quiet, Due, Safe, SpacingOk, WindowsOk, ReadPipesOk,
      ReadsOk, CrossOk, TracesOk;
    var i, y := DrainsFrom(p, start, past, m, es, z);
    NoneDue(es, i);
    RefreshComes(p, m, es[..i], y, rank);
    NoneWaits(p, y);
  }

  lemma NoneWaits(p: Params, y: Mem)
    requires OrderOk(p, y.sched, y.waiting, y.past) && Left(p, y) == 0
    ensures y.sched.refresh == None
  {
    hide Work;
    WorkDone(p, y.sched, TickAll(p, y.rows.banks), y.waiting);
  }

  lemma {:induction false} NoneDue(es: seq<Event>, i: nat)
    requires Due(es) == 0 && i <= |es|
    ensures Due(es[..i]) == 0
  {
    if i > 0 {
      NoneDue(es[1..], i - 1);
      assert es[..i][1..] == es[1..][..i - 1];
    }
  }

  lemma {:induction false} NoRefreshes(es: seq<Event>)
    requires forall i :: 0 <= i < |es| ==> es[i].Clock? && es[i].refresh == None
    ensures Due(es) == 0
  {
    if es != [] { NoRefreshes(es[1..]); }
  }

  /** The clock alone brings out everything that was accepted, and the refresh that waits. */
  lemma ClockIssuesAll(p: Params, start: Mem, past: seq<Event>, m: Mem) returns (es: seq<Event>, z: Mem)
    requires Sane(p) && p.tRP >= 1 && p.queueDepth >= 2 && Reaches(p, start, past, m)
    ensures Placed(p) && Run(p, m, es, z) && NoArrivals(es) && Due(es) == 0 && |es| == Bound(p, m, 0)
    ensures forall t :: t in m.past.accepted ==> ColumnIssued(p, z.past.log, t)
    ensures m.sched.refresh.Some? ==> RefreshIssued(z.past.log, |m.past.log|, m.sched.refresh.value)
  {
    hide Reaches, Sane, Run, Live, Placed, Due, Bound, Consistent, ColumnIssued, RefreshIssued;
    ReachedLive(p, start, past, m);
    es, z := ClockOn(p, m, Bound(p, m, 0));
    NoRefreshes(es);
    forall t | t in m.past.accepted ensures ColumnIssued(p, z.past.log, t) {
      EveryTransactionIssued(p, start, past, m, es, z, t);
    }
    if m.sched.refresh.Some? { WaitingRefreshIssued(p, start, past, m, es, z, m.sched.refresh.value); }
  }
}
