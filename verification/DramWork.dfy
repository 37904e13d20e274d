/** How much a memory channel has left to do: every cycle but an idle one makes it less. */
module DramWork {
  import opened Basics
  import opened DramBanks
  import opened DramQueues
  import opened DramScheduling
  import opened DramSchedulerSteps
  import opened DramPipes
  import opened DramRuns
  import opened DramSafety
  import opened DramReads

  function QueueSize(q: Queue): nat { |q| }
  function RankSize(qs: seq<Queue>): nat { Total(qs, QueueSize) }

  function IsOpen(s: BankState): nat { if s.state == RowActive then 1 else 0 }
  function OpenRows(row: seq<BankState>): nat { Total(row, IsOpen) }

  function IsDue(refresh: Option<nat>): nat { if refresh.Some? then 1 else 0 }

  /** A waiting transaction becomes two commands; an activate is paid for by the row it opens. */
  function Work(st: Sched, banks: Banks, waiting: seq<Txn>): nat {
    2 * Total(st.queues, RankSize) + 5 * |waiting| + Total(banks, OpenRows) + IsDue(st.refresh)
  }

  // Sums.

  lemma {:induction false} TotalLess<T>(s: seq<T>, t: seq<T>, f: T -> nat)
    requires |s| == |t| && forall i :: 0 <= i < |s| ==> f(s[i]) <= f(t[i])
    ensures Total(s, f) <= Total(t, f)
  {
    if s != [] { TotalLess(s[..|s| - 1], t[..|t| - 1], f); }
  }

  lemma TotalLessBut<T>(s: seq<T>, t: seq<T>, i: nat, f: T -> nat)
    requires |s| == |t| && i < |s| && forall k :: 0 <= k < |s| && k != i ==> f(s[k]) <= f(t[k])
    ensures Total(s, f) + f(t[i]) <= Total(t, f) + f(s[i])
  {
    hide Total;
    TotalLess(s, t[i := s[i]], f);
    TotalUpdate(t, i, s[i], f);
  }

  /** No row is open that was not, except perhaps in one bank. */
  lemma OpenBut(p: Params, banks: Banks, banks': Banks, rank: nat, bank: nat)
    requires GridOf(p, banks) && GridOf(p, banks') && InRange(p, rank, bank)
    requires forall r: nat, b: nat ::
             InRange(p, r, b) && (r != rank || b != bank) ==> IsOpen(banks'[r][b]) <= IsOpen(banks[r][b])
    ensures Total(banks', OpenRows) + IsOpen(banks[rank][bank]) <= Total(banks, OpenRows) + IsOpen(banks'[rank][bank])
  {
    hide Total, IsOpen;
    forall r: nat | r < p.ranks && r != rank ensures OpenRows(banks'[r]) <= OpenRows(banks[r]) {
      TotalLess(banks'[r], banks[r], IsOpen);
    }
    TotalLessBut(banks'[rank], banks[rank], bank, IsOpen);
    TotalLessBut(banks', banks, rank, OpenRows);
  }

  lemma TickOpens(p: Params, banks: Banks)
    requires GridOf(p, banks) && p.ranks >= 1 && p.banks >= 1
    ensures Total(TickAll(p, banks), OpenRows) <= Total(banks, OpenRows)
  {
    hide Total;
    OpenBut(p, banks, TickAll(p, banks), 0, 0);
  }

  lemma IssueOpens(p: Params, banks: Banks, c: Packet, now: int)
    requires GridOf(p, banks) && InRange(p, c.at.rank, c.at.bank)
    ensures Total(IssueAll(p, banks, c, now), OpenRows) <= Total(banks, OpenRows) + 1
    ensures c.kind != Activate ==> Total(IssueAll(p, banks, c, now), OpenRows) <= Total(banks, OpenRows)
    ensures c.kind == Precharge && banks[c.at.rank][c.at.bank].state == RowActive ==>
              Total(IssueAll(p, banks, c, now), OpenRows) < Total(banks, OpenRows)
  {
    hide Total;
    OpenBut(p, banks, IssueAll(p, banks, c, now), c.at.rank, c.at.bank);
  }

  lemma WithQueueSize(p: Params, st: Sched, rank: nat, bank: nat, q: Queue)
    requires Shaped(p, st) && InRange(p, rank, bank)
    ensures Total(WithQueue(p, st, rank, bank, q).queues, RankSize) + |QueueAt(p, st, rank, bank)|
            == Total(st.queues, RankSize) + |q|
  {
    hide Total;
    var k := QueueIndex(p, bank);
    TotalUpdate(st.queues[rank], k, q, QueueSize);
    TotalUpdate(st.queues, rank, st.queues[rank][k := q], RankSize);
  }

  // The parts of a cycle.

  /** The banks after a command, or none. */
  function IssuedBanks(p: Params, banks: Banks, c: Option<Packet>, now: int): Banks {
    if c.Some? then IssueAll(p, banks, c.value, now) else banks
  }

  /** Whatever is picked leaves less to do. */
  lemma PickWorks(p: Params, st: Sched, banks: Banks, pick: Pick, waiting: seq<Txn>, now: int)
    requires Sane(p) && SchedOk(p, st, banks) && Wellformed(p, st, banks) && TimersOk(p, banks, now)
    requires Eligible(p, st, banks, pick, now) && Valid(p, st, pick)
    ensures var w := Work(Picked(p, st, pick), IssuedBanks(p, banks, Command(p, st, pick), now), waiting);
            if pick == Nothing then w == Work(st, banks, waiting) else w < Work(st, banks, waiting)
  {
    hide SchedOk, TimersOk, IssueAll, BankReady, Removable, Total, Removed, Wellformed, Scheduled, Flushed, NothingToDo;
    SchedShaped(p, st, banks);
    match pick
    case Nothing =>
    case Take(rank, bank, i, absorb) =>
      TakeOk(p, st, banks, rank, bank, i, absorb, now);
      var q := QueueAt(p, st, rank, bank);
      WithQueueSize(p, st, rank, bank, Removed(q, i, absorb));
      CommandInRange(p, st, banks, rank, bank, i);
      IssueOpens(p, banks, q[i], now);
    case Close(rank, bank) => IssueOpens(p, banks, Command(p, st, pick).value, now);
    case RefreshNow => IssueOpens(p, banks, Command(p, st, pick).value, now);
  }

  lemma CommandInRange(p: Params, st: Sched, banks: Banks, rank: nat, bank: nat, i: nat)
    requires Wellformed(p, st, banks) && InRange(p, rank, bank) && i < |QueueAt(p, st, rank, bank)|
    ensures var at := QueueAt(p, st, rank, bank)[i].at; InRange(p, at.rank, at.bank)
  {
    assert QueueInRange(p, QueueAt(p, st, rank, bank));
  }

  lemma SplitWorks(p: Params, st: Sched, banks: Banks, waiting: seq<Txn>, d: Data)
    requires Shaped(p, st) && Placed(p)
    ensures var (st', waiting', _) := Split(p, st, waiting, d);
            if FirstWithRoom(p, st, waiting, 0) < |waiting| then Work(st', banks, waiting') < Work(st, banks, waiting)
            else Work(st', banks, waiting') == Work(st, banks, waiting)
  {
    hide Total;
    var i := FirstWithRoom(p, st, waiting, 0);
    if i < |waiting| {
      var t := waiting[i];
      var at := p.place(t.addr);
      WithQueueSize(p, st, at.rank, at.bank, QueueAt(p, st, at.rank, at.bank) + CommandsOf(p, t.isWrite, t.addr, t.id));
    }
  }

  // Nothing left.

  lemma WorkDone(p: Params, st: Sched, banks: Banks, waiting: seq<Txn>)
    requires Shaped(p, st) && Work(st, banks, waiting) == 0
    ensures waiting == [] && st.refresh == None
    ensures forall r: nat, b: nat :: InRange(p, r, b) ==> QueueAt(p, st, r, b) == []
  {
    hide Total;
    forall r: nat, b: nat | InRange(p, r, b) ensures QueueAt(p, st, r, b) == [] {
      TotalPositive(st.queues, r, RankSize);
      TotalPositive(st.queues[r], QueueIndex(p, b), QueueSize);
    }
  }

  /** Nothing is left at rest. */
  lemma RestWork(p: Params, st: Sched, banks: Banks)
    requires Shaped(p, st) && GridOf(p, banks) && st.refresh == None && p.banks >= 1
    requires forall r: nat, b: nat :: InRange(p, r, b) ==> QueueAt(p, st, r, b) == [] && banks[r][b].state != RowActive
    ensures Work(st, banks, []) == 0
  {
    forall r: nat | r < p.ranks ensures RankSize(st.queues[r]) == 0 && OpenRows(banks[r]) == 0 {
      forall k | 0 <= k < |st.queues[r]|
        ensures st.queues[r][k] == []
      {
        assert st.queues[r][k] == QueueAt(p, st, r, k);
      }
      TotalZero(st.queues[r], QueueSize);
      TotalZero(banks[r], IsOpen);
    }
    TotalZero(st.queues, RankSize);
    TotalZero(banks, OpenRows);
  }
}
