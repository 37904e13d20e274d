/**
 The choices of CommandQueue::pop.  `Allowed` says which packet may be picked in a given state; the
 round-robin cursors only decide between several allowed picks.
 */
module DramScheduling {
  import opened Basics
  import opened DramBanks
  import opened DramQueues

  type Banks = seq<seq<BankState>>

  /** The queues, the row access counters, the activate windows and the rank waiting for a refresh. */
  datatype Sched = Sched(queues: seq<seq<Queue>>, counters: seq<seq<nat>>, faw: seq<seq<int>>, refresh: Option<nat>)

  datatype Pick =
    | Nothing
    | Take(rank: nat, bank: nat, i: nat, absorb: bool)
    | Close(rank: nat, bank: nat)
    | RefreshNow

  function QueueIndex(p: Params, bank: nat): nat { if p.perBank then bank else 0 }

  function QueuesPerRank(p: Params): nat { if p.perBank then p.banks else 1 }

  ghost predicate GridOf(p: Params, banks: Banks) {
    |banks| == p.ranks && forall r :: 0 <= r < p.ranks ==> |banks[r]| == p.banks
  }

  ghost predicate Shaped(p: Params, st: Sched) {
    && |st.queues| == p.ranks && (forall r :: 0 <= r < p.ranks ==> |st.queues[r]| == QueuesPerRank(p))
    && |st.counters| == p.ranks && (forall r :: 0 <= r < p.ranks ==> |st.counters[r]| == p.banks)
    && |st.faw| == p.ranks
    && (st.refresh.Some? ==> st.refresh.value < p.ranks)
  }

  predicate InRange(p: Params, rank: nat, bank: nat) { rank < p.ranks && bank < p.banks }

  function QueueAt(p: Params, st: Sched, rank: nat, bank: nat): Queue
    requires Shaped(p, st) && InRange(p, rank, bank)
  {
    st.queues[rank][QueueIndex(p, bank)]
  }

  /** CommandQueue::isIssuable; a refresh is never queued, and the test refuses it. */
  predicate Issuable(p: Params, st: Sched, banks: Banks, c: Packet, now: int)
    requires Shaped(p, st) && GridOf(p, banks) && InRange(p, c.at.rank, c.at.bank)
  {
    && c.kind != Refresh && BankReady(p, banks[c.at.rank][c.at.bank], c, now)
    && (c.kind == Activate ==> |st.faw[c.at.rank]| < 4)
    && (IsColumn(c.kind) ==> st.counters[c.at.rank][c.at.bank] < p.rowAccesses)
  }

  /** An earlier column command goes to the same bank and row. */
  predicate Depends(q: Queue, i: nat)
    requires i < |q|
  {
    exists j :: 0 <= j < i && q[j].kind != Activate && q[j].at.bank == q[i].at.bank && q[j].at.row == q[i].at.row
  }

  /** Why the scan passes over a packet that could be issued. */
  predicate PassedOver(p: Params, q: Queue, i: nat)
    requires i < |q|
  {
    if p.openPage then Depends(q, i)
    else if p.perBank then i > 0
    else i > 0 && q[i - 1].kind == Activate && q[i - 1].addr == q[i].addr
  }

  ghost predicate QueueInRange(p: Params, q: Queue) {
    forall i :: 0 <= i < |q| ==> InRange(p, q[i].at.rank, q[i].at.bank)
  }

  ghost predicate Wellformed(p: Params, st: Sched, banks: Banks) {
    && Shaped(p, st) && GridOf(p, banks)
    && (forall r, b :: InRange(p, r, b) ==> QueueInRange(p, QueueAt(p, st, r, b)))
  }

  ghost predicate Candidate(p: Params, st: Sched, banks: Banks, rank: nat, bank: nat, i: nat, now: int)
    requires Wellformed(p, st, banks) && InRange(p, rank, bank)
  {
    var q := QueueAt(p, st, rank, bank);
    i < |q| && Issuable(p, st, banks, q[i], now) && !PassedOver(p, q, i)
  }

  /** The first candidate of a queue; with an open page its own activate is dropped with it. */
  ghost predicate Scheduled(p: Params, st: Sched, banks: Banks, rank: nat, bank: nat, i: nat, absorb: bool, now: int)
    requires Wellformed(p, st, banks) && InRange(p, rank, bank)
  {
    && st.refresh != Some(rank)
    && Candidate(p, st, banks, rank, bank, i, now)
    && (forall j: nat :: j < i ==> !Candidate(p, st, banks, rank, bank, j, now))
    && absorb == (p.openPage && i > 0 && QueueAt(p, st, rank, bank)[i - 1].kind == Activate)
  }

  /** The first packet for the open row of a bank, from index i on; the queue's length if there is none. */
  function FirstForRow(q: Queue, bank: nat, row: nat, i: nat): (r: nat)
    requires i <= |q|
    ensures i <= r <= |q|
    ensures r < |q| ==> q[r].at.bank == bank && q[r].at.row == row
    ensures forall j :: i <= j < r ==> q[j].at.bank != bank || q[j].at.row != row
    decreases |q| - i
  {
    if i == |q| || (q[i].at.bank == bank && q[i].at.row == row) then i else FirstForRow(q, bank, row, i + 1)
  }

  /** While a refresh waits, the column command of an open row still goes. */
  ghost predicate Flushed(p: Params, st: Sched, banks: Banks, rank: nat, bank: nat, i: nat, now: int)
    requires Wellformed(p, st, banks) && InRange(p, rank, bank)
  {
    var q, s := QueueAt(p, st, rank, bank), banks[rank][bank];
    && st.refresh == Some(rank) && s.state == RowActive
    && i == FirstForRow(q, bank, s.row, 0) && i < |q| && q[i].kind != Activate && Issuable(p, st, banks, q[i], now)
  }

  /** An open row is closed when nothing more goes to it, when it was used often enough, or for a refresh. */
  ghost predicate Closable(p: Params, st: Sched, banks: Banks, rank: nat, bank: nat, now: int)
    requires Wellformed(p, st, banks) && InRange(p, rank, bank)
  {
    var q, s := QueueAt(p, st, rank, bank), banks[rank][bank];
    var i := FirstForRow(q, bank, s.row, 0);
    && p.openPage && s.state == RowActive && now >= s.nextPrecharge
    && (i == |q| || st.counters[rank][bank] == p.rowAccesses || (st.refresh == Some(rank) && q[i].kind == Activate))
  }

  ghost predicate AllReadyForRefresh(p: Params, banks: Banks, rank: nat, now: int)
    requires GridOf(p, banks) && rank < p.ranks
  {
    forall b: nat :: b < p.banks ==> banks[rank][b].state != RowActive && banks[rank][b].nextActivate <= now
  }

  /** Nothing is picked only if no rank outside a waiting refresh has a candidate, and no row can be closed. */
  ghost predicate NothingToDo(p: Params, st: Sched, banks: Banks, now: int)
    requires Wellformed(p, st, banks)
  {
    forall r: nat, b: nat :: InRange(p, r, b) ==>
      && (st.refresh != Some(r) ==> forall i: nat :: !Candidate(p, st, banks, r, b, i, now))
      && (p.openPage && banks[r][b].state == RowActive && now >= banks[r][b].nextPrecharge ==>
            var q := QueueAt(p, st, r, b);
            FirstForRow(q, b, banks[r][b].row, 0) < |q| && st.counters[r][b] != p.rowAccesses)
  }

  /** What may be picked at all; a waiting refresh comes first, as `Prior` says. */
  ghost predicate Eligible(p: Params, st: Sched, banks: Banks, pick: Pick, now: int)
    requires Wellformed(p, st, banks)
  {
    match pick
    case Nothing => NothingToDo(p, st, banks, now)
    case Take(rank, bank, i, absorb) =>
      && InRange(p, rank, bank)
      && (Scheduled(p, st, banks, rank, bank, i, absorb, now) || (!absorb && Flushed(p, st, banks, rank, bank, i, now)))
    case Close(rank, bank) => InRange(p, rank, bank) && Closable(p, st, banks, rank, bank, now)
    case RefreshNow => st.refresh.Some? && AllReadyForRefresh(p, banks, st.refresh.value, now)
  }

  /** The first bank of a rank whose row is open, or that may not be activated yet; or the number of banks. */
  function FirstBusy(p: Params, banks: Banks, rank: nat, now: int, b: nat): (r: nat)
    requires GridOf(p, banks) && rank < p.ranks && b <= p.banks
    ensures b <= r <= p.banks
    ensures r < p.banks ==> banks[rank][r].state == RowActive || banks[rank][r].nextActivate > now
    ensures forall k :: b <= k < r ==> banks[rank][k].state != RowActive && banks[rank][k].nextActivate <= now
    decreases p.banks - b
  {
    if b == p.banks || banks[rank][b].state == RowActive || banks[rank][b].nextActivate > now then b
    else FirstBusy(p, banks, rank, now, b + 1)
  }

  /** What a waiting refresh asks for: the column of an open row, its precharge, or the refresh itself. */
  ghost function RefreshPick(p: Params, st: Sched, banks: Banks, now: int): Pick
    requires Wellformed(p, st, banks) && st.refresh.Some?
  {
    var rank := st.refresh.value;
    var b := FirstBusy(p, banks, rank, now, 0);
    if b == p.banks then RefreshNow
    else if banks[rank][b].state != RowActive then Nothing
    else
      var q, s := QueueAt(p, st, rank, b), banks[rank][b];
      var i := FirstForRow(q, b, s.row, 0);
      if i < |q| && q[i].kind != Activate then
        if InRange(p, q[i].at.rank, q[i].at.bank) && Issuable(p, st, banks, q[i], now) then Take(rank, b, i, false)
            else Nothing
      else if p.openPage && now >= s.nextPrecharge then Close(rank, b)
      else Nothing
  }

  /** No rank outside a waiting refresh has a candidate. */
  ghost predicate NoneReady(p: Params, st: Sched, banks: Banks, now: int)
    requires Wellformed(p, st, banks)
  {
    forall r: nat, b: nat, i: nat ::
      InRange(p, r, b) && st.refresh != Some(r) ==> !Candidate(p, st, banks, r, b, i, now)
  }

  /** Nothing queued goes to the open row, or it was used often enough. */
  ghost predicate Unwanted(p: Params, st: Sched, banks: Banks, rank: nat, bank: nat)
    requires Wellformed(p, st, banks) && InRange(p, rank, bank)
  {
    var q := QueueAt(p, st, rank, bank);
    FirstForRow(q, bank, banks[rank][bank].row, 0) == |q| || st.counters[rank][bank] == p.rowAccesses
  }

  /** A pick of the ordinary scans; a row is closed only in a cycle that nothing else can use. */
  ghost predicate Ordinary(p: Params, st: Sched, banks: Banks, pick: Pick, now: int)
    requires Wellformed(p, st, banks)
  {
    match pick
    case Nothing => true
    case Take(rank, bank, i, absorb) => InRange(p, rank, bank) && Scheduled(p, st, banks, rank, bank, i, absorb, now)
    case Close(rank, bank) =>
        InRange(p, rank, bank) && Unwanted(p, st, banks, rank, bank) && NoneReady(p, st, banks, now)
    case RefreshNow => false
  }

  /** What a waiting refresh asks for goes before anything else. */
  ghost predicate Prior(p: Params, st: Sched, banks: Banks, pick: Pick, now: int)
    requires Wellformed(p, st, banks)
  {
    if st.refresh.Some? && RefreshPick(p, st, banks, now) != Nothing then pick == RefreshPick(p, st, banks, now)
    else Ordinary(p, st, banks, pick, now)
  }

  ghost predicate Allowed(p: Params, st: Sched, banks: Banks, pick: Pick, now: int)
    requires Wellformed(p, st, banks)
  {
    Eligible(p, st, banks, pick, now) && Prior(p, st, banks, pick, now)
  }

  /** A refresh can always be served when its rank is ready for it. */
  lemma RefreshEligible(p: Params, st: Sched, banks: Banks, now: int)
    requires Wellformed(p, st, banks) && st.refresh.Some?
    ensures var pick := RefreshPick(p, st, banks, now); pick != Nothing ==> Eligible(p, st, banks, pick, now)
    ensures RefreshPick(p, st, banks, now) == RefreshNow <==> AllReadyForRefresh(p, banks, st.refresh.value, now)
  {
    hide Issuable, Scheduled;
    var rank := st.refresh.value;
    var b := FirstBusy(p, banks, rank, now, 0);
    if b < p.banks { assert QueueInRange(p, QueueAt(p, st, rank, b)); }
  }

  // The effect of a pick.

  function WithQueue(p: Params, st: Sched, rank: nat, bank: nat, q: Queue): Sched
    requires Shaped(p, st) && InRange(p, rank, bank)
  {
    st.(queues := st.queues[rank := st.queues[rank][QueueIndex(p, bank) := q]])
  }

  function WithCounter(p: Params, st: Sched, rank: nat, bank: nat, n: nat): Sched
    requires Shaped(p, st) && InRange(p, rank, bank)
  {
    var row: seq<nat> := st.counters[rank][bank := n];
    st.(counters := st.counters[rank := row])
  }

  ghost predicate Valid(p: Params, st: Sched, pick: Pick)
    requires Shaped(p, st)
  {
    match pick
    case Nothing => true
    case Take(rank, bank, i, absorb) => InRange(p, rank, bank) && i < |QueueAt(p, st, rank, bank)| && (absorb ==> i > 0)
    case Close(rank, bank) => InRange(p, rank, bank)
    case RefreshNow => st.refresh.Some?
  }

  /** The command that goes on the bus. */
  function Command(p: Params, st: Sched, pick: Pick): Option<Packet>
    requires Shaped(p, st) && Valid(p, st, pick)
  {
    match pick
    case Nothing => None
    case Take(rank, bank, i, absorb) => Some(QueueAt(p, st, rank, bank)[i])
    case Close(rank, bank) => Some(Packet(Precharge, 0, Place(rank, bank, 0), 0))
    case RefreshNow => Some(Packet(Refresh, 0, Place(st.refresh.value, 0, 0), 0))
  }

  function Opened(p: Params, st: Sched, c: Packet): Sched
    requires Shaped(p, st)
  {
    if c.kind == Activate && c.at.rank < p.ranks then st.(faw := st.faw[c.at.rank := st.faw[c.at.rank] + [p.tFAW]])
        else st
  }

  function Picked(p: Params, st: Sched, pick: Pick): (r: Sched)
    requires Shaped(p, st) && Valid(p, st, pick)
    ensures Shaped(p, r)
  {
    match pick
    case Nothing => st
    case Take(rank, bank, i, absorb) =>
      var q := QueueAt(p, st, rank, bank);
      var st1 := WithQueue(p, st, rank, bank, Removed(q, i, absorb));
      var c := q[i];
      var st2 := if absorb && InRange(p, c.at.rank, c.at.bank)
                 then WithCounter(p, st1, c.at.rank, c.at.bank, st.counters[c.at.rank][c.at.bank] + 1) else st1;
      Opened(p, st2, c)
    case Close(rank, bank) => WithCounter(p, st, rank, bank, 0)
    case RefreshNow => st.(refresh := None)
  }

  // The invariant of the scheduler.

  ghost predicate QueueOk(p: Params, q: Queue, rank: nat, queueBank: nat, row: seq<BankState>, counters: seq<nat>) {
    Homed(p, q, rank, queueBank) && Paired(q) && NotStranded(q, row, counters) && |q| <= p.queueDepth
  }

  /** Row accesses are counted only while the row is open. */
  ghost predicate CountersOk(p: Params, row: seq<BankState>, counters: seq<nat>) {
    |row| == |counters| && forall b :: 0 <= b < |row| && counters[b] > 0 ==> p.openPage && row[b].state == RowActive
  }

  ghost predicate RankOk(p: Params, st: Sched, banks: Banks, rank: nat)
    requires Shaped(p, st) && GridOf(p, banks) && rank < p.ranks
  {
    && CountersOk(p, banks[rank], st.counters[rank])
    && forall k :: 0 <= k < QueuesPerRank(p) ==> QueueOk(p, st.queues[rank][k], rank, k, banks[rank], st.counters[rank])
  }

  ghost predicate SchedOk(p: Params, st: Sched, banks: Banks) {
    Shaped(p, st) && GridOf(p, banks) && forall r: nat :: r < p.ranks ==> RankOk(p, st, banks, r)
  }

  lemma SchedWellformed(p: Params, st: Sched, banks: Banks)
    requires SchedOk(p, st, banks)
    ensures Wellformed(p, st, banks)
  {
    forall r, b | InRange(p, r, b) ensures QueueInRange(p, QueueAt(p, st, r, b)) {
      QueueIsOk(p, st, banks, r, b);
    }
  }

  lemma QueueIsOk(p: Params, st: Sched, banks: Banks, rank: nat, bank: nat)
    requires SchedOk(p, st, banks) && InRange(p, rank, bank)
    ensures QueueOk(p, QueueAt(p, st, rank, bank), rank, QueueIndex(p, bank), banks[rank], st.counters[rank])
    ensures CountersOk(p, banks[rank], st.counters[rank])
    ensures QueueInRange(p, QueueAt(p, st, rank, bank))
  {
    hide QueueOk;
    assert RankOk(p, st, banks, rank);
    assert QueueOk(p, st.queues[rank][QueueIndex(p, bank)], rank, QueueIndex(p, bank), banks[rank], st.counters[rank]);
    HomedInRange(p, QueueAt(p, st, rank, bank), rank, QueueIndex(p, bank), banks[rank], st.counters[rank]);
  }

  lemma HomedInRange(p: Params, q: Queue, rank: nat, k: nat, row: seq<BankState>, counters: seq<nat>)
    requires QueueOk(p, q, rank, k, row, counters) && rank < p.ranks
    ensures QueueInRange(p, q)
  {
    forall i | 0 <= i < |q| ensures InRange(p, q[i].at.rank, q[i].at.bank) { assert HomedPacket(p, q[i], rank, k); }
  }
}
