/** Every allowed pick keeps the scheduler's invariant: activates stay paired and no column is stranded. */
module DramSchedulerSteps {
  import opened Basics
  import opened DramBanks
  import opened DramQueues
  import opened DramScheduling

  ghost predicate TimersOk(p: Params, banks: Banks, now: int)
    requires GridOf(p, banks)
  {
    forall r: nat, b: nat :: InRange(p, r, b) ==> TimerOk(p, banks[r][b], now)
  }

  // What the scan picks can be removed.

  /** The first packet of a bank, from index i on; the queue's length if there is none. */
  ghost function FirstFor(q: Queue, bank: nat, i: nat): (r: nat)
    requires i <= |q|
    ensures i <= r <= |q|
    ensures r < |q| ==> q[r].at.bank == bank
    ensures forall j :: i <= j < r ==> q[j].at.bank != bank
    decreases |q| - i
  {
    if i == |q| || q[i].at.bank == bank then i else FirstFor(q, bank, i + 1)
  }

  /** If an activate can go, so can the first packet of its bank. */
  lemma FirstCanGo(p: Params, st: Sched, banks: Banks, rank: nat, bank: nat, i: nat, j: nat, now: int)
    requires SchedOk(p, st, banks) && Wellformed(p, st, banks) && InRange(p, rank, bank)
    requires Candidate(p, st, banks, rank, bank, i, now) && QueueAt(p, st, rank, bank)[i].kind == Activate
    requires var q := QueueAt(p, st, rank, bank); j <= i && q[j].at.bank == q[i].at.bank && FirstOfBank(q, j)
    ensures Candidate(p, st, banks, rank, bank, j, now)
  {
    hide SchedOk, CountersOk;
    var q := QueueAt(p, st, rank, bank);
    QueueIsOk(p, st, banks, rank, bank);
    assert HomedPacket(p, q[j], rank, QueueIndex(p, bank)) && HomedPacket(p, q[0], rank, QueueIndex(p, bank));
    assert HomedPacket(p, q[i], rank, QueueIndex(p, bank));
    assert j > 0 ==> q[j - 1].kind != Activate;
    assert IsColumn(q[j].kind) ==> Loose(q, j);
  }

  lemma ActivateIsFirst(p: Params, st: Sched, banks: Banks, rank: nat, bank: nat, i: nat, now: int)
    requires SchedOk(p, st, banks) && Wellformed(p, st, banks) && InRange(p, rank, bank)
    requires Candidate(p, st, banks, rank, bank, i, now) && QueueAt(p, st, rank, bank)[i].kind == Activate
    requires forall j: nat :: j < i ==> !Candidate(p, st, banks, rank, bank, j, now)
    ensures FirstOfBank(QueueAt(p, st, rank, bank), i)
  {
    hide SchedOk, Candidate;
    var q := QueueAt(p, st, rank, bank);
    CandidateRange(p, st, banks, rank, bank, i, now);
    FirstCanGo(p, st, banks, rank, bank, i, FirstFor(q, q[i].at.bank, 0), now);
  }

  lemma CandidateRange(p: Params, st: Sched, banks: Banks, rank: nat, bank: nat, i: nat, now: int)
    requires Wellformed(p, st, banks) && InRange(p, rank, bank) && Candidate(p, st, banks, rank, bank, i, now)
    ensures i < |QueueAt(p, st, rank, bank)|
  {
  }

  lemma ScheduledRemovable(p: Params, st: Sched, banks: Banks, rank: nat, bank: nat, i: nat, absorb: bool, now: int)
    requires SchedOk(p, st, banks) && Wellformed(p, st, banks) && InRange(p, rank, bank)
    requires Scheduled(p, st, banks, rank, bank, i, absorb, now)
    ensures Removable(QueueAt(p, st, rank, bank), i, absorb)
  {
    hide SchedOk, CountersOk, NotStranded;
    var q := QueueAt(p, st, rank, bank);
    QueueIsOk(p, st, banks, rank, bank);
    assert HomedPacket(p, q[i], rank, QueueIndex(p, bank));
    if i > 0 && q[i - 1].kind == Activate { assert PairAt(q, i - 1); }
    if q[i].kind == Activate { ActivateIsFirst(p, st, banks, rank, bank, i, now); }
  }

  lemma FlushedRemovable(p: Params, st: Sched, banks: Banks, rank: nat, bank: nat, i: nat, now: int)
    requires SchedOk(p, st, banks) && Wellformed(p, st, banks) && InRange(p, rank, bank)
    requires Flushed(p, st, banks, rank, bank, i, now)
    ensures Removable(QueueAt(p, st, rank, bank), i, false)
  {
    hide SchedOk, CountersOk, NotStranded;
    var q := QueueAt(p, st, rank, bank);
    QueueIsOk(p, st, banks, rank, bank);
    assert HomedPacket(p, q[i], rank, QueueIndex(p, bank));
    assert i > 0 ==> q[i - 1].kind != Activate;
  }

  /** A row that may be closed has no loose column waiting for it. */
  lemma ClosableHasNone(p: Params, st: Sched, banks: Banks, rank: nat, bank: nat, k: nat, now: int)
    requires Sane(p) && SchedOk(p, st, banks) && Wellformed(p, st, banks) && InRange(p, rank, bank)
    requires Closable(p, st, banks, rank, bank, now) && Loose(QueueAt(p, st, rank, bank), k)
    ensures QueueAt(p, st, rank, bank)[k].at.bank != bank
  {
    hide SchedOk, CountersOk, Homed, Paired, Sane;
    QueueIsOk(p, st, banks, rank, bank);
    SomeAccess(p);
  }

  lemma SomeAccess(p: Params)
    requires Sane(p)
    ensures p.rowAccesses >= 1
  {
  }

  // The tables after a command.

  function IssueRow(p: Params, row: seq<BankState>, rank: nat, c: Packet, now: int): seq<BankState> {
    seq(|row|, b requires 0 <= b < |row| => IssueBank(p, row[b], rank, b, c, now))
  }

  function IssueAll(p: Params, banks: Banks, c: Packet, now: int): Banks {
    seq(|banks|, r requires 0 <= r < |banks| => IssueRow(p, banks[r], r, c, now))
  }

  function TickRow(p: Params, row: seq<BankState>): seq<BankState> {
    seq(|row|, b requires 0 <= b < |row| => TickBank(p, row[b]))
  }

  function TickAll(p: Params, banks: Banks): Banks {
    seq(|banks|, r requires 0 <= r < |banks| => TickRow(p, banks[r]))
  }

  /** A command opens, closes and times only the banks it concerns. */
  lemma IssueElsewhere(p: Params, s: BankState, rank: nat, bank: nat, c: Packet, now: int)
    requires !Concerns(c, rank, bank)
    ensures var s' := IssueBank(p, s, rank, bank, c, now);
            s'.state == s.state && s'.countdown == s.countdown && s'.row == s.row
  {
  }

  lemma ActivateOpens(p: Params, s: BankState, rank: nat, bank: nat, c: Packet, now: int)
    requires TimerOk(p, s, now) && c.kind == Activate && Concerns(c, rank, bank) && BankReady(p, s, c, now)
    ensures OpenAt(IssueBank(p, s, rank, bank, c, now), c.at.row)
  {
  }

  /** A rank to which no command goes. */
  lemma OtherRank(p: Params, st: Sched, banks: Banks, st': Sched, c: Packet, rank: nat, now: int)
    requires Shaped(p, st) && Shaped(p, st') && GridOf(p, banks) && rank < p.ranks && RankOk(p, st, banks, rank)
    requires c.at.rank != rank && st'.queues[rank] == st.queues[rank] && st'.counters[rank] == st.counters[rank]
    ensures RankOk(p, st', IssueAll(p, banks, c, now), rank)
  {
    hide IssueBank, Homed, Paired;
    var row, row' := banks[rank], IssueRow(p, banks[rank], rank, c, now);
    forall b | 0 <= b < p.banks
      ensures row'[b].state == row[b].state && row'[b].countdown == row[b].countdown && row'[b].row == row[b].row
    {
      IssueElsewhere(p, row[b], rank, b, c, now);
    }
    forall k | 0 <= k < QueuesPerRank(p) ensures QueueOk(p, st'.queues[rank][k], rank, k, row', st'.counters[rank]) {
      assert QueueOk(p, st.queues[rank][k], rank, k, row, st.counters[rank]);
    }
  }

  /** Taking a packet from its queue. */
  lemma TakeRank(p: Params, st: Sched, banks: Banks, rank: nat, bank: nat, i: nat, absorb: bool, now: int)
    requires Sane(p) && SchedOk(p, st, banks) && TimersOk(p, banks, now) && InRange(p, rank, bank)
    requires Removable(QueueAt(p, st, rank, bank), i, absorb) && (absorb ==> p.openPage)
    requires var c := QueueAt(p, st, rank, bank)[i]; InRange(p, c.at.rank, c.at.bank) && Issuable(p, st, banks, c, now)
    ensures var c := QueueAt(p, st, rank, bank)[i];
            RankOk(p, Picked(p, st, Take(rank, bank, i, absorb)), IssueAll(p, banks, c, now), rank)
  {
    hide CountersOk, Removable, Sane, IssueBank, TimerOk, BankReady, Homed, Paired, NotStranded;
    var q := QueueAt(p, st, rank, bank);
    RemovableRange(q, i, absorb);
    QueueIsOk(p, st, banks, rank, bank);
    var c := q[i];
    HomedHere(p, q, i, rank, QueueIndex(p, bank));
    var st' := Picked(p, st, Take(rank, bank, i, absorb));
    var row, row' := banks[rank], IssueRow(p, banks[rank], rank, c, now);
    var n, n' := st.counters[rank], st'.counters[rank];
    assert n' == if absorb then n[c.at.bank := n[c.at.bank] + 1] else n;
    TakenRow(p, row, n, n', rank, c, absorb, now);
    forall k | 0 <= k < QueuesPerRank(p) ensures QueueOk(p, st'.queues[rank][k], rank, k, row', n') {
      QueueKIsOk(p, st, banks, rank, k);
      if k == QueueIndex(p, bank) {
        RemovedHomed(p, q, i, absorb, rank, k);
        RemovedPaired(q, i, absorb);
        TakenFacts(p, row, rank, c, n, now);
        RemovedStranded(q, i, absorb, row, n, row', n');
      } else {
        LooseBank(p, st.queues[rank][k], rank, k);
        OtherQueue(p, st.queues[rank][k], rank, k, row, n, row', n', c.at.bank);
      }
    }
  }

  lemma RemovableRange(q: Queue, i: nat, absorb: bool)
    requires Removable(q, i, absorb)
    ensures i < |q| && (absorb ==> i > 0 && IsColumn(q[i].kind))
  {
  }

  lemma HomedHere(p: Params, q: Queue, i: nat, rank: nat, k: nat)
    requires Homed(p, q, rank, k) && i < |q|
    ensures HomedPacket(p, q[i], rank, k)
  {
  }

  lemma QueueKIsOk(p: Params, st: Sched, banks: Banks, rank: nat, k: nat)
    requires SchedOk(p, st, banks) && rank < p.ranks && k < QueuesPerRank(p)
    ensures QueueOk(p, st.queues[rank][k], rank, k, banks[rank], st.counters[rank])
            && CountersOk(p, banks[rank], st.counters[rank])
  {
    hide QueueOk, CountersOk;
    assert RankOk(p, st, banks, rank);
  }

  lemma LooseBank(p: Params, q: Queue, rank: nat, k: nat)
    requires p.perBank && Homed(p, q, rank, k)
    ensures forall i :: Loose(q, i) ==> q[i].at.bank == k
  {
    forall i | Loose(q, i) ensures q[i].at.bank == k { assert HomedPacket(p, q[i], rank, k); }
  }

  lemma RemovedHomed(p: Params, q: Queue, i: nat, absorb: bool, rank: nat, k: nat)
    requires Homed(p, q, rank, k) && i < |q| && (absorb ==> i > 0)
    ensures Homed(p, Removed(q, i, absorb), rank, k)
  {
    hide HomedPacket;
  }

  /** The row of banks after a packet is taken: the others keep their rows, and counters stay honest. */
  lemma TakenRow(p: Params, row: seq<BankState>, n: seq<nat>, n': seq<nat>, rank: nat, c: Packet, absorb: bool,
      now: int)
    requires CountersOk(p, row, n) && c.at.bank < |row| && c.at.rank == rank
             && (absorb ==> p.openPage && IsColumn(c.kind))
    requires (c.kind == Activate || IsColumn(c.kind)) && BankReady(p, row[c.at.bank], c, now)
    requires n' == if absorb then n[c.at.bank := n[c.at.bank] + 1] else n
    ensures CountersOk(p, IssueRow(p, row, rank, c, now), n')
    ensures var row' := IssueRow(p, row, rank, c, now);
            forall b :: 0 <= b < |row| && b != c.at.bank ==>
              row'[b].state == row[b].state && row'[b].countdown == row[b].countdown && row'[b].row == row[b].row
  {
    hide BankReady, IssueBank;
    var row' := IssueRow(p, row, rank, c, now);
    forall b | 0 <= b < |row| && b != c.at.bank
      ensures row'[b].state == row[b].state && row'[b].countdown == row[b].countdown && row'[b].row == row[b].row
    {
      IssueElsewhere(p, row[b], rank, b, c, now);
    }
    TakenOpen(p, row[c.at.bank], rank, c, now);
  }

  lemma TakenOpen(p: Params, s: BankState, rank: nat, c: Packet, now: int)
    requires c.at.rank == rank && (c.kind == Activate || IsColumn(c.kind)) && BankReady(p, s, c, now)
    ensures IssueBank(p, s, rank, c.at.bank, c, now).state == RowActive
    ensures IsColumn(c.kind) ==> s.state == RowActive && s.row == c.at.row
  {
  }

  lemma TakenFacts(p: Params, row: seq<BankState>, rank: nat, c: Packet, n: seq<nat>, now: int)
    requires CountersOk(p, row, n) && c.at.bank < |row| && c.at.rank == rank && TimerOk(p, row[c.at.bank], now)
    requires (c.kind == Activate || IsColumn(c.kind)) && BankReady(p, row[c.at.bank], c, now)
    ensures IsColumn(c.kind) ==> row[c.at.bank].row == c.at.row
    ensures c.kind == Activate ==> OpenAt(IssueRow(p, row, rank, c, now)[c.at.bank], c.at.row) && n[c.at.bank] == 0
  {
    hide IssueBank;
    if c.kind == Activate { ActivateOpens(p, row[c.at.bank], rank, c.at.bank, c, now); }
  }

  /** A queue that does not change, while one bank of its rank does and it holds nothing loose for it. */
  lemma OtherQueue(p: Params, q: Queue, rank: nat, k: nat, row: seq<BankState>, n: seq<nat>, row': seq<BankState>,
      n': seq<nat>, bank: nat)
    requires QueueOk(p, q, rank, k, row, n) && |row'| == |row| && |n'| == |n| == |row|
    requires forall b :: 0 <= b < |row| && b != bank ==>
               row'[b].state == row[b].state && row'[b].countdown == row[b].countdown && row'[b].row == row[b].row
                   && n'[b] == n[b]
    requires forall i :: Loose(q, i) ==> q[i].at.bank != bank
    ensures QueueOk(p, q, rank, k, row', n')
  {
    hide Homed, Paired;
  }

  lemma OtherRanks(p: Params, st: Sched, banks: Banks, st': Sched, c: Packet, now: int)
    requires SchedOk(p, st, banks) && Shaped(p, st') && c.at.rank < p.ranks
    requires forall r: nat ::
             r < p.ranks && r != c.at.rank ==> st'.queues[r] == st.queues[r] && st'.counters[r] == st.counters[r]
    requires RankOk(p, st', IssueAll(p, banks, c, now), c.at.rank)
    ensures SchedOk(p, st', IssueAll(p, banks, c, now))
  {
    hide RankOk, IssueBank;
    forall r: nat | r < p.ranks ensures RankOk(p, st', IssueAll(p, banks, c, now), r) {
      if r != c.at.rank { OtherRank(p, st, banks, st', c, r, now); }
    }
  }

  lemma TakeOk(p: Params, st: Sched, banks: Banks, rank: nat, bank: nat, i: nat, absorb: bool, now: int)
    requires Sane(p) && SchedOk(p, st, banks) && Wellformed(p, st, banks) && TimersOk(p, banks, now)
    requires Eligible(p, st, banks, Take(rank, bank, i, absorb), now)
    ensures Valid(p, st, Take(rank, bank, i, absorb))
    ensures var c := QueueAt(p, st, rank, bank)[i];
            && HomedPacket(p, c, rank, QueueIndex(p, bank)) && BankReady(p, banks[rank][c.at.bank], c, now)
            && SchedOk(p, Picked(p, st, Take(rank, bank, i, absorb)), IssueAll(p, banks, c, now))
            && Removable(QueueAt(p, st, rank, bank), i, absorb)
            && (c.kind == Activate ==> |st.faw[rank]| < 4)
  {
    hide SchedOk, Sane, IssueBank, BankReady, Removable, RankOk, FirstForRow, PassedOver, TimersOk;
    var q := QueueAt(p, st, rank, bank);
    if Scheduled(p, st, banks, rank, bank, i, absorb, now) {
      ScheduledRemovable(p, st, banks, rank, bank, i, absorb, now);
    } else {
      FlushedRemovable(p, st, banks, rank, bank, i, now);
    }
    RemovableRange(q, i, absorb);
    QueueIsOk(p, st, banks, rank, bank);
    HomedHere(p, q, i, rank, QueueIndex(p, bank));
    TakeRank(p, st, banks, rank, bank, i, absorb, now);
    OtherRanks(p, st, banks, Picked(p, st, Take(rank, bank, i, absorb)), q[i], now);
  }

  lemma CloseOk(p: Params, st: Sched, banks: Banks, rank: nat, bank: nat, now: int)
    requires Sane(p) && SchedOk(p, st, banks) && Wellformed(p, st, banks)
    requires Eligible(p, st, banks, Close(rank, bank), now)
    ensures var c := Packet(Precharge, 0, Place(rank, bank, 0), 0);
            SchedOk(p, Picked(p, st, Close(rank, bank)), IssueAll(p, banks, c, now))
                && BankReady(p, banks[rank][bank], c, now)
  {
    hide SchedOk, Sane, IssueBank, FirstForRow;
    var c := Packet(Precharge, 0, Place(rank, bank, 0), 0);
    var st' := Picked(p, st, Close(rank, bank));
    var row, row' := banks[rank], IssueRow(p, banks[rank], rank, c, now);
    var n, n' := st.counters[rank], st'.counters[rank];
    QueueIsOk(p, st, banks, rank, bank);
    forall b | 0 <= b < |row| && b != bank
      ensures row'[b].state == row[b].state && row'[b].countdown == row[b].countdown && row'[b].row == row[b].row
    {
      IssueElsewhere(p, row[b], rank, b, c, now);
    }
    forall k | 0 <= k < QueuesPerRank(p) ensures QueueOk(p, st'.queues[rank][k], rank, k, row', n') {
      QueueKIsOk(p, st, banks, rank, k);
      CloseLoose(p, st, banks, rank, bank, k, now);
      OtherQueue(p, st.queues[rank][k], rank, k, row, n, row', n', bank);
    }
    OtherRanks(p, st, banks, st', c, now);
  }

  lemma CloseLoose(p: Params, st: Sched, banks: Banks, rank: nat, bank: nat, k: nat, now: int)
    requires Sane(p) && SchedOk(p, st, banks) && Wellformed(p, st, banks) && InRange(p, rank, bank)
             && Closable(p, st, banks, rank, bank, now)
    requires k < QueuesPerRank(p)
    ensures forall i :: Loose(st.queues[rank][k], i) ==> st.queues[rank][k][i].at.bank != bank
  {
    hide SchedOk, Sane, Closable;
    QueueKIsOk(p, st, banks, rank, k);
    if k == QueueIndex(p, bank) {
      forall i | Loose(st.queues[rank][k], i)
        ensures st.queues[rank][k][i].at.bank != bank
      {
        ClosableHasNone(p, st, banks, rank, bank, i, now);
      }
    } else {
      LooseBank(p, st.queues[rank][k], rank, k);
    }
  }

  lemma RefreshOk(p: Params, st: Sched, banks: Banks, now: int)
    requires Sane(p) && SchedOk(p, st, banks) && Wellformed(p, st, banks) && Eligible(p, st, banks, RefreshNow, now)
    ensures var c := Packet(Refresh, 0, Place(st.refresh.value, 0, 0), 0);
            && SchedOk(p, Picked(p, st, RefreshNow), IssueAll(p, banks, c, now))
            && (forall b: nat :: b < p.banks ==> BankReady(p, banks[st.refresh.value][b], c, now))
            && p.banks >= 1 && st.refresh.value < p.ranks
  {
    hide FirstForRow, Homed, Paired;
    var rank := st.refresh.value;
    assert RankOk(p, st, banks, rank);
    var c := Packet(Refresh, 0, Place(rank, 0, 0), 0);
    var st' := Picked(p, st, RefreshNow);
    forall k | 0 <= k < QueuesPerRank(p)
      ensures QueueOk(p, st'.queues[rank][k], rank, k, IssueRow(p, banks[rank], rank, c, now), st'.counters[rank])
    {
      QueueKIsOk(p, st, banks, rank, k);
    }
    OtherRanks(p, st, banks, st', c, now);
  }

  /** A command that an allowed pick sends is ready at every bank it concerns. */
  ghost predicate ReadyCommand(p: Params, banks: Banks, c: Packet, now: int)
    requires GridOf(p, banks)
  {
    && InRange(p, c.at.rank, c.at.bank) && InPolicy(p, c.kind)
    && forall b: nat :: b < p.banks && Concerns(c, c.at.rank, b) ==> BankReady(p, banks[c.at.rank][b], c, now)
  }

  /** The main step: whatever is picked, the command is ready and the invariant survives it. */
  lemma PickOk(p: Params, st: Sched, banks: Banks, pick: Pick, now: int)
    requires Sane(p) && SchedOk(p, st, banks) && Wellformed(p, st, banks) && TimersOk(p, banks, now)
             && Eligible(p, st, banks, pick, now)
    ensures Valid(p, st, pick)
    ensures match Command(p, st, pick)
            case None => Picked(p, st, pick) == st
            case Some(c) =>
                ReadyCommand(p, banks, c, now) && SchedOk(p, Picked(p, st, pick), IssueAll(p, banks, c, now))
  {
    hide SchedOk, Sane, IssueBank, BankReady, Wellformed, Scheduled, Flushed, FirstForRow, NothingToDo, TimersOk,
      Removable;
    match pick
    case Nothing =>
    case Take(rank, bank, i, absorb) => TakeOk(p, st, banks, rank, bank, i, absorb, now);
    case Close(rank, bank) => CloseOk(p, st, banks, rank, bank, now);
    case RefreshNow => RefreshOk(p, st, banks, now);
  }

  // The clock and new commands.

  lemma TickOpen(p: Params, s: BankState, now: int)
    requires TimerOk(p, s, now)
    ensures s.countdown == 0 ==> TickBank(p, s) == s
    ensures p.openPage && s.state == RowActive ==> TickBank(p, s) == s
  {
  }

  /** Rows in use survive the countdowns. */
  lemma TickedOk(p: Params, st: Sched, banks: Banks, now: int)
    requires SchedOk(p, st, banks) && TimersOk(p, banks, now)
    ensures SchedOk(p, st, TickAll(p, banks))
  {
    hide TickBank, TimerOk, Homed, Paired;
    var banks' := TickAll(p, banks);
    forall r: nat | r < p.ranks ensures RankOk(p, st, banks', r) {
      assert RankOk(p, st, banks, r);
      forall b | 0 <= b < p.banks
        ensures banks[r][b].countdown == 0 || (p.openPage && banks[r][b].state == RowActive)
                ==> banks'[r][b] == banks[r][b]
      {
        assert InRange(p, r, b);
        TickOpen(p, banks[r][b], now);
      }
      forall k | 0 <= k < QueuesPerRank(p) ensures QueueOk(p, st.queues[r][k], r, k, banks'[r], st.counters[r]) {
        assert QueueOk(p, st.queues[r][k], r, k, banks[r], st.counters[r]);
      }
    }
  }

  function ColumnKind(p: Params, isWrite: bool): Kind {
    if isWrite then (if p.openPage then Write else WriteP) else (if p.openPage then Read else ReadP)
  }

  /** The two commands of a transaction. */
  function CommandsOf(p: Params, isWrite: bool, addr: nat, txn: nat): seq<Packet> {
    [Packet(Activate, addr, p.place(addr), txn), Packet(ColumnKind(p, isWrite), addr, p.place(addr), txn)]
  }

  function Enqueued(p: Params, st: Sched, isWrite: bool, addr: nat, txn: nat): Sched
    requires Shaped(p, st) && InRange(p, p.place(addr).rank, p.place(addr).bank)
  {
    var at := p.place(addr);
    WithQueue(p, st, at.rank, at.bank, QueueAt(p, st, at.rank, at.bank) + CommandsOf(p, isWrite, addr, txn))
  }

  lemma EnqueuedOk(p: Params, st: Sched, banks: Banks, isWrite: bool, addr: nat, txn: nat)
    requires Sane(p) && SchedOk(p, st, banks)
    requires |QueueAt(p, st, p.place(addr).rank, p.place(addr).bank)| + 2 <= p.queueDepth
    ensures SchedOk(p, Enqueued(p, st, isWrite, addr, txn), banks)
  {
    var at := p.place(addr);
    var st' := Enqueued(p, st, isWrite, addr, txn);
    hide Sane;
    forall r: nat | r < p.ranks ensures RankOk(p, st', banks, r) {
      assert RankOk(p, st, banks, r);
      forall k | 0 <= k < QueuesPerRank(p) ensures QueueOk(p, st'.queues[r][k], r, k, banks[r], st.counters[r]) {
        assert QueueOk(p, st.queues[r][k], r, k, banks[r], st.counters[r]);
        if r == at.rank && k == QueueIndex(p, at.bank) {
          AppendedOk(p, st.queues[r][k], r, k, banks[r], st.counters[r], isWrite, addr, txn);
        }
      }
    }
  }

  lemma AppendedOk(p: Params, q: Queue, rank: nat, k: nat, row: seq<BankState>, n: seq<nat>, isWrite: bool, addr: nat,
      txn: nat)
    requires QueueOk(p, q, rank, k, row, n) && |q| + 2 <= p.queueDepth
    requires var at := p.place(addr); at.rank == rank && at.bank < p.banks && (p.perBank ==> at.bank == k)
    ensures QueueOk(p, q + CommandsOf(p, isWrite, addr, txn), rank, k, row, n)
  {
    var q' := q + CommandsOf(p, isWrite, addr, txn);
    assert Homed(p, q', rank, k);
    forall i | 0 <= i < |q'| && q'[i].kind == Activate ensures PairAt(q', i) {
      if i < |q| { assert PairAt(q, i); }
    }
    forall i | Loose(q', i) ensures Loose(q, i) { assert i < |q|; }
  }
}
