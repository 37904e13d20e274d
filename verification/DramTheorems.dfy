/** What holds in every run of a memory channel, from power-up on. */
module DramTheorems {
  import opened Basics
  import opened DramBanks
  import opened DramQueues
  import opened DramScheduling
  import opened DramSchedulerSteps
  import opened DramPipes
  import opened DramRuns
  import opened DramSafety
  import opened DramSpacing
  import opened DramWindows
  import opened DramOrder
  import opened DramData
  import opened DramReads
  import opened DramCrossRank

  datatype Event = Arrives(isWrite: bool, addr: nat) | Clock(refresh: Option<nat>, pick: Pick)

  ghost predicate Enabled(p: Params, m: Mem, e: Event) { e.Clock? ==> CycleAllowed(p, m, e.refresh, e.pick) }

  ghost function Next(p: Params, m: Mem, e: Event): Mem
    requires Placed(p) && Enabled(p, m, e)
  {
    match e
    case Arrives(isWrite, addr) => Arrive(m, isWrite, addr)
    case Clock(refresh, pick) => Cycle(p, m, refresh, pick)
  }

  ghost predicate Run(p: Params, m: Mem, es: seq<Event>, z: Mem)
    requires Placed(p)
    decreases |es|
  {
    if es == [] then z == m else Enabled(p, m, es[0]) && Run(p, Next(p, m, es[0]), es[1..], z)
  }

  ghost predicate Consistent(p: Params, m: Mem) {
    && Safe(p, m.rows, m.sched, m.now)
    && SpacingOk(p, m.rows, m.past.log, m.now)
    && WindowsOk(p, m.sched.faw, m.past.log, m.now)
    && OrderOk(p, m.sched, m.waiting, m.past)
    && ReadPipesOk(p, m.data.back, m.past.log, m.rows.bus, m.now)
    && ReadsOk(m.sched, m.rows.bus, m.data)
    && CrossOk(p, m)
    && TracesOk(p, m)
  }

  lemma FreshConsistent(p: Params, m: Mem)
    requires Sane(p) && Placed(p) && Fresh(p, m)
    ensures Consistent(p, m) && BusOk(p, m)
  {
    FreshSafe(p, m);
    hide Safe, Sane;
    forall at: Place | InRange(p, at.rank, at.bank) ensures InOrder(p, m.sched, m.waiting, m.past, at) {
      assert QueueAt(p, m.sched, at.rank, at.bank) == [];
    }
    FreshReads(p, m);
    hide ReadsOk, CrossOk, TracesOk, OrderOk;
    assert GridOf(p, TickAll(p, m.rows.banks));
  }

  lemma FreshReads(p: Params, m: Mem)
    requires Fresh(p, m)
    ensures ReadsOk(m.sched, m.rows.bus, m.data)
  {
    forall x: nat ensures Conserved(m.sched, m.rows.bus, m.data, x) {
      forall r | 0 <= r < |m.sched.queues|
        ensures InRank(x)(m.sched.queues[r]) == 0
      {
        TotalZero(m.sched.queues[r], InQueue(x));
      }
      TotalZero(m.sched.queues, InRank(x));
      TotalZero(m.data.back, InPipe(x));
    }
  }

  lemma StepConsistent(p: Params, m: Mem, e: Event)
    requires Sane(p) && Placed(p) && Consistent(p, m) && Enabled(p, m, e)
    ensures Consistent(p, Next(p, m, e))
  {
    hide Safe, SpacingOk, WindowsOk, OrderOk, ReadPipesOk, ReadsOk, CrossOk, TracesOk, CycleAllowed, Cycle, Sane,
      Placed;
    match e
    case Arrives(isWrite, addr) =>
      ArriveOrder(p, m, isWrite, addr);
      ArriveCross(p, m, isWrite, addr);
    case Clock(refresh, pick) =>
      CycleSafe(p, m, refresh, pick);
      CycleSpacing(p, m, refresh, pick);
      CycleWindows(p, m, refresh, pick);
      CycleOrder(p, m, refresh, pick);
      SpacingFacts(p, m.rows, m.past.log, m.now);
      CycleReads(p, m, refresh, pick);
      PipesFree(p, m);
      CycleConserves(p, m, refresh, pick);
      CycleCross(p, m, refresh, pick);
      CycleTraces(p, m, refresh, pick);
  }

  lemma ArriveCross(p: Params, m: Mem, isWrite: bool, addr: nat)
    requires CrossOk(p, m) && TracesOk(p, m)
    ensures CrossOk(p, Arrive(m, isWrite, addr)) && TracesOk(p, Arrive(m, isWrite, addr))
  {
    hide AllYield, CrossSpaced, LogOk, Traced;
  }

  lemma SpacingFacts(p: Params, w: Rows, log: seq<Issued>, now: int)
    requires SpacingOk(p, w, log, now)
    ensures Spaced(p, log)
  {
  }

  lemma PipesFree(p: Params, m: Mem)
    requires Sane(p) && Spaced(p, m.past.log) && ReadPipesOk(p, m.data.back, m.past.log, m.rows.bus, m.now)
    ensures |m.data.back| == p.ranks && forall r :: 0 <= r < p.ranks ==> !Collides(m.data.back[r])
  {
    hide PipeOk, Spaced, Collides, Sane;
    ReadPipesNext(p, m.data, m.past.log, m.rows.bus, m.now);
  }

  lemma {:induction false} RunConsistent(p: Params, m: Mem, es: seq<Event>, z: Mem)
    requires Sane(p) && Placed(p) && Consistent(p, m) && Run(p, m, es, z)
    ensures Consistent(p, z)
    decreases |es|
  {
    hide Consistent, Next, Enabled, Sane, Placed;
    if es != [] {
      StepConsistent(p, m, es[0]);
      RunConsistent(p, Next(p, m, es[0]), es[1..], z);
    }
  }

  ghost predicate Reaches(p: Params, start: Mem, es: seq<Event>, m: Mem) {
    Placed(p) && Fresh(p, start) && Run(p, start, es, m)
  }

  lemma Reached(p: Params, start: Mem, es: seq<Event>, m: Mem)
    requires Sane(p) && Reaches(p, start, es, m)
    ensures Consistent(p, m)
  {
    hide Consistent, Run, Fresh, Sane;
    FreshConsistent(p, start);
    RunConsistent(p, start, es, m);
  }

  // The theorems.

  /** The clock never stops: whatever refresh is due, some pick is allowed. */
  lemma SomePickAllowed(p: Params, start: Mem, es: seq<Event>, m: Mem, refresh: Option<nat>) returns (pick: Pick)
    requires Sane(p) && Reaches(p, start, es, m) && (refresh.Some? ==> refresh.value < p.ranks)
    ensures CycleAllowed(p, m, refresh, pick)
  {
    hide Reaches, Sane, Consistent, CycleAllowed;
    Reached(p, start, es, m);
    pick := PickExists(p, m, refresh);
  }

  lemma PickExists(p: Params, m: Mem, refresh: Option<nat>) returns (pick: Pick)
    requires Consistent(p, m) && (refresh.Some? ==> refresh.value < p.ranks)
    ensures CycleAllowed(p, m, refresh, pick)
  {
    hide SpacingOk, WindowsOk, OrderOk, ReadPipesOk, ReadsOk, CrossOk, TracesOk, SchedOk, TickAll, Eligible, Prior,
      Prepared, Valid, ReceiveAll, Linked;
    var st, banks := Prepared(m.sched, refresh), TickAll(p, m.rows.banks);
    PreparedOk(p, m.sched, refresh, banks);
    SchedShaped(p, m.sched, banks);
    SchedWellformed(p, st, banks);
    pick := SomePick(p, st, banks, m.now);
  }

  /** The clock may run for any number of cycles. */
  lemma {:induction false} ClockOn(p: Params, m: Mem, n: nat) returns (es: seq<Event>, z: Mem)
    requires Sane(p) && Placed(p) && Consistent(p, m)
    ensures Run(p, m, es, z) && z.now == m.now + n && m.past.log <= z.past.log
    ensures |es| == n && forall i :: 0 <= i < n ==> es[i].Clock? && es[i].refresh == None
    decreases n
  {
    hide Sane, Placed, Consistent, CycleAllowed, Cycle;
    es, z := [], m;
    if n > 0 {
      var pick := PickExists(p, m, None);
      StepConsistent(p, m, Clock(None, pick));
      CycleBack(p, m, None, pick);
      es, z := ClockOn(p, Cycle(p, m, None, pick), n - 1);
      es := [Clock(None, pick)] + es;
    }
  }

  lemma SomePick(p: Params, st: Sched, banks: Banks, now: int) returns (pick: Pick)
    requires Wellformed(p, st, banks)
    ensures Allowed(p, st, banks, pick, now) && Valid(p, st, pick)
  {
    hide Candidate, RefreshPick, Issuable, FirstForRow;
    pick := Nothing;
    if st.refresh.Some? { RefreshEligible(p, st, banks, now); }
    if st.refresh.Some? && RefreshPick(p, st, banks, now) != Nothing {
      pick := RefreshPick(p, st, banks, now);
      RefreshTakes(p, st, banks, now);
    } else if !NoneReady(p, st, banks, now) {
      var r: nat, b: nat, i: nat :| InRange(p, r, b) && st.refresh != Some(r) && Candidate(p, st, banks, r, b, i, now);
      var first := FirstCandidate(p, st, banks, r, b, i, now);
      CandidateRange(p, st, banks, r, b, first, now);
      pick := Take(r, b, first, p.openPage && first > 0 && QueueAt(p, st, r, b)[first - 1].kind == Activate);
    } else if !NothingToDo(p, st, banks, now) {
      var r: nat, b: nat :| InRange(p, r, b) &&
        !(&& (st.refresh != Some(r) ==> forall i: nat :: !Candidate(p, st, banks, r, b, i, now))
          && (p.openPage && banks[r][b].state == RowActive && now >= banks[r][b].nextPrecharge ==>
                var q := QueueAt(p, st, r, b);
                FirstForRow(q, b, banks[r][b].row, 0) < |q| && st.counters[r][b] != p.rowAccesses));
      pick := Close(r, b);
    }
  }

  lemma RefreshTakes(p: Params, st: Sched, banks: Banks, now: int)
    requires Wellformed(p, st, banks) && st.refresh.Some?
    ensures Valid(p, st, RefreshPick(p, st, banks, now))
  {
  }

  lemma {:induction false} FirstCandidate(p: Params, st: Sched, banks: Banks, r: nat, b: nat, i: nat, now: int)
      returns (first: nat)
    requires Wellformed(p, st, banks) && InRange(p, r, b) && Candidate(p, st, banks, r, b, i, now)
    ensures Candidate(p, st, banks, r, b, first, now) && forall j: nat ::
            j < first ==> !Candidate(p, st, banks, r, b, j, now)
    decreases i
  {
    hide Candidate;
    if j: nat :| j < i && Candidate(p, st, banks, r, b, j, now) {
      first := FirstCandidate(p, st, banks, r, b, j, now);
    } else {
      first := i;
    }
  }

  /** No error exit of Rank::receiveFromBus is reachable. */
  lemma RankNeverRefuses(p: Params, start: Mem, es: seq<Event>, m: Mem)
    requires Sane(p) && Reaches(p, start, es, m)
    ensures !RankRefuses(p, m.rows, m.now)
  {
    hide RankRefuses, Reaches, Sane, SpacingOk, WindowsOk, OrderOk, ReadPipesOk, ReadsOk, CrossOk, TracesOk, SchedOk,
      AllAgree;
    Reached(p, start, es, m);
  }

  /** Activates stay with their columns, no queue overflows, and a column left alone finds its row open. */
  lemma NoStrandedColumn(p: Params, start: Mem, es: seq<Event>, m: Mem, rank: nat, bank: nat)
    requires Sane(p) && Reaches(p, start, es, m) && InRange(p, rank, bank)
    ensures Shaped(p, m.sched) && GridOf(p, TickAll(p, m.rows.banks))
    ensures var q, row := QueueAt(p, m.sched, rank, bank), TickAll(p, m.rows.banks)[rank];
            && Paired(q) && |q| <= p.queueDepth
            && forall i ::
               Loose(q, i) ==> FirstOfBank(q, i) && q[i].at.bank < p.banks && OpenAt(row[q[i].at.bank], q[i].at.row)
  {
    hide Reaches, Sane, SpacingOk, WindowsOk, OrderOk, ReadPipesOk, ReadsOk, CrossOk, TracesOk, SchedOk, Linked, Homed,
      TickAll;
    Reached(p, start, es, m);
    SchedShaped(p, m.sched, TickAll(p, m.rows.banks));
    QueueIsOk(p, m.sched, TickAll(p, m.rows.banks), rank, bank);
  }

  /** Any two commands keep the distance the table asks for. */
  lemma CommandsAreSpaced(p: Params, start: Mem, es: seq<Event>, m: Mem, i: nat, j: nat)
    requires Sane(p) && Reaches(p, start, es, m) && i < j < |m.past.log|
    ensures m.past.log[j].time > m.past.log[i].time
    ensures m.past.log[j].time - m.past.log[i].time >= Gap(p, m.past.log[i].cmd, m.past.log[j].cmd)
  {
    hide Reaches, Sane, Safe, WindowsOk, OrderOk, ReadPipesOk, ReadsOk, CrossOk, TracesOk, Horizons, LogOk, Gap;
    Reached(p, start, es, m);
  }

  /** The distances to a column command of the same rank, in cycles. */
  lemma Turnarounds(p: Params, start: Mem, es: seq<Event>, m: Mem, i: nat, j: nat)
    requires Sane(p) && Reaches(p, start, es, m) && i < j < |m.past.log|
    requires m.past.log[i].cmd.at.rank == m.past.log[j].cmd.at.rank
    ensures var c, d, t := m.past.log[i].cmd, m.past.log[j].cmd, m.past.log[j].time - m.past.log[i].time;
            && (c.kind == Write && d.kind == Read ==> t >= p.CL + p.AL - 1 + p.BL / 2 + p.tWTR)
            && (c.kind == Read && d.kind == Write ==> t >= 1 + p.BL / 2 + p.tRTRS)
            && ((c.kind == Read && d.kind == Read) || (c.kind == Write && d.kind == Write)
               ==> t >= p.BL / 2 && t >= p.tCCD)
            && (c.kind == WriteP && d.kind == ReadP ==> t >= p.CL + p.AL - 1 + p.BL / 2 + Min(p.tWTR, p.tWR + p.tRP))
            && (c.kind == ReadP && d.kind == WriteP ==> t >= Min(1 + p.BL / 2 + p.tRTRS, p.AL + p.tRTP + p.tRP))
  {
    hide Reaches, Sane, Consistent;
    CommandsAreSpaced(p, start, es, m, i, j);
  }

  /** The distances between the commands of one bank that open and close its row, in cycles. */
  lemma Recoveries(p: Params, start: Mem, es: seq<Event>, m: Mem, i: nat, j: nat)
    requires Sane(p) && Reaches(p, start, es, m) && i < j < |m.past.log|
    requires m.past.log[i].cmd.at.rank == m.past.log[j].cmd.at.rank
             && m.past.log[i].cmd.at.bank == m.past.log[j].cmd.at.bank
    ensures var c, d, t := m.past.log[i].cmd, m.past.log[j].cmd, m.past.log[j].time - m.past.log[i].time;
            && (c.kind == Write && d.kind == Precharge ==> t >= p.CL + p.AL - 1 + p.BL / 2 + p.tWR)
            && (c.kind == Read && d.kind == Precharge ==> t >= p.AL + p.BL / 2 + Max(p.tRTP, p.tCCD) - p.tCCD)
            && (c.kind == WriteP && d.kind == Activate ==> t >= p.CL + p.AL - 1 + p.BL / 2 + p.tWR + p.tRP)
            && (c.kind == ReadP && d.kind == Activate ==> t >= p.AL + p.tRTP + p.tRP)
            && (c.kind == Activate && d.kind == Precharge ==> t >= p.tRAS)
            && (c.kind == Precharge && d.kind == Activate ==> t >= p.tRP)
            && (c.kind == Activate && d.kind == Activate ==> t >= p.tRC)
            && (c.kind == Activate && IsColumn(d.kind) ==> t >= p.tRCD - p.AL)
  {
    hide Reaches, Sane, Consistent;
    CommandsAreSpaced(p, start, es, m, i, j);
  }

  /**
   Column commands of different ranks keep the distance the shared bus asks for, if the row of the later one
   was not opened in between.
   */
  lemma RanksAreSpaced(p: Params, start: Mem, es: seq<Event>, m: Mem, i: nat, j: nat)
    requires Sane(p) && Reaches(p, start, es, m) && i < j < |m.past.log|
             && CrossPair(m.past.log[i].cmd, m.past.log[j].cmd)
    requires forall k ::
             i < k < j ==> !Activates(m.past.log[k].cmd, m.past.log[j].cmd.at.rank, m.past.log[j].cmd.at.bank)
    ensures m.past.log[j].time - m.past.log[i].time >= CrossGap(p, m.past.log[i].cmd.kind, m.past.log[j].cmd.kind)
  {
    hide Reaches, Sane, Safe, WindowsOk, OrderOk, ReadPipesOk, ReadsOk, SpacingOk, TracesOk, AllYield, LogOk, CrossGap;
    Reached(p, start, es, m);
  }

  /** The k-th and the (k+4)-th activate of a rank are at least tFAW cycles apart. */
  lemma FourActivateWindow(p: Params, start: Mem, es: seq<Event>, m: Mem, rank: nat, k: nat)
    requires Sane(p) && Reaches(p, start, es, m) && rank < p.ranks && k + 4 < |Activations(m.past.log, rank)|
    ensures Activations(m.past.log, rank)[k + 4] - Activations(m.past.log, rank)[k] >= p.tFAW
  {
    hide Reaches, Sane, Safe, SpacingOk, OrderOk, ReadPipesOk, ReadsOk, CrossOk, TracesOk, WindowOk, Activations;
    Reached(p, start, es, m);
  }

  /** Requests to one row, hence to one address, issue in the order of their arrival. */
  lemma ArrivalOrder(p: Params, start: Mem, es: seq<Event>, m: Mem, at: Place)
    requires Sane(p) && Reaches(p, start, es, m) && InRange(p, at.rank, at.bank)
    ensures IssuedColumns(m.past.log, at) <= TxnsAt(p, m.past.accepted, at)
    ensures Shaped(p, m.sched)
    ensures IssuedColumns(m.past.log, at) + Columns(QueueAt(p, m.sched, at.rank, at.bank), at)
            + TxnsAt(p, m.waiting, at)
            == TxnsAt(p, m.past.accepted, at)
  {
    hide Reaches, Sane, Safe, SpacingOk, WindowsOk, ReadPipesOk, ReadsOk, CrossOk, TracesOk, Columns, TxnsAt,
      IssuedColumns;
    Reached(p, start, es, m);
    assert InOrder(p, m.sched, m.waiting, m.past, at);
  }

  /** Reads are conserved, and returned data always finds the read it answers. */
  lemma ReadsAreConserved(p: Params, start: Mem, es: seq<Event>, m: Mem, x: nat)
    requires Sane(p) && Reaches(p, start, es, m)
    ensures Conserved(m.sched, m.rows.bus, m.data, x)
  {
    hide Reaches, Sane, Safe, SpacingOk, WindowsOk, OrderOk, ReadPipesOk, Conserved, AllReads;
    Reached(p, start, es, m);
  }

  lemma ReturnedDataMatches(p: Params, start: Mem, es: seq<Event>, m: Mem, refresh: Option<nat>, pick: Pick)
    requires Sane(p) && Reaches(p, start, es, m) && CycleAllowed(p, m, refresh, pick)
    ensures !Unmatched(BeforeAnswer(p, m, refresh, pick))
    ensures |m.data.back| == p.ranks && forall r :: 0 <= r < p.ranks ==> !Collides(m.data.back[r])
  {
    hide Run, Fresh, Sane, Safe, WindowsOk, OrderOk, ReadPipesOk, ReadsOk, CrossOk, TracesOk, CycleAllowed, Unmatched,
      BeforeAnswer, Collides, Placed, Horizons, LogOk, Spaced;
    Reached(p, start, es, m);
    PipesFree(p, m);
    CycleConserves(p, m, refresh, pick);
  }

  lemma {:induction false} RunWrites(p: Params, m: Mem, es: seq<Event>, z: Mem)
    requires Sane(p) && BusWide(p) && Placed(p) && Consistent(p, m) && Run(p, m, es, z) && BusOk(p, m)
    ensures BusOk(p, z)
    decreases |es|
  {
    hide Safe, SpacingOk, WindowsOk, OrderOk, ReadPipesOk, ReadsOk, CrossOk, TracesOk, CycleAllowed, Cycle, Sane,
      Placed, BusWide, BusOk;
    if es != [] {
      StepConsistent(p, m, es[0]);
      if es[0].Clock? {
        CycleWrites(p, m, es[0].refresh, es[0].pick);
      } else {
        ArriveWrites(p, m, es[0].isWrite, es[0].addr);
      }
      RunWrites(p, Next(p, m, es[0]), es[1..], z);
    }
  }

  lemma ArriveWrites(p: Params, m: Mem, isWrite: bool, addr: nat)
    requires BusOk(p, m)
    ensures BusOk(p, Arrive(m, isWrite, addr))
  {
    hide PipeOk, Held, Apart, ColumnsPlaced, Unused, LastWrite, LogOk;
  }

  /** If a row can be opened no faster than the bus empties, writes never collide on the data bus. */
  lemma NoDataBusCollision(p: Params, start: Mem, es: seq<Event>, m: Mem)
    requires Sane(p) && BusWide(p) && Reaches(p, start, es, m)
    ensures !Collides(m.data.writes)
    ensures Apart(true, p, m.past.log) && Apart(false, p, m.past.log)
  {
    hide Run, Fresh, Consistent, BusWide, Placed, Collides, Held, Apart, LogOk, PipeOk, LastWrite, ColumnsPlaced,
      Unused;
    FreshConsistent(p, start);
    RunWrites(p, start, es, m);
    PipeTick(m.data.writes, Burst(p), WL(p), LastWrite(m.past.log), m.now - 1);
  }

  /** Under the same condition two ranks never drive the data bus at the same time. */
  lemma NoReadOverlap(p: Params, start: Mem, es: seq<Event>, m: Mem)
    requires Sane(p) && BusWide(p) && Reaches(p, start, es, m)
    ensures !ReadsOverlap(m.data.back)
  {
    hide Run, Fresh, BusWide, Placed, Sane, Safe, WindowsOk, OrderOk, ReadPipesOk, ReadsOk, SpacingOk, TracesOk,
      CrossOk, Apart, ReadsOverlap, Collides;
    Reached(p, start, es, m);
    NoDataBusCollision(p, start, es, m);
    ApartNoOverlap(p, m);
  }
}
