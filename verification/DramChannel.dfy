/**
 The channel as objects: a memory controller and its ranks, updated in the order of MemorySystem::update.
 The ghost field follows the run, so what is proved of runs is proved of the objects: no error exit is taken.
 */
module DramChannel {
  import opened Basics
  import opened DramBanks
  import opened DramQueues
  import opened DramScheduling
  import opened DramSchedulerSteps
  import opened DramPipes
  import opened DramRuns
  import opened DramSafety
  import opened DramSpacing
  import opened DramWindows
  import opened DramOrder
  import opened DramData
  import opened DramReads
  import opened DramCrossRank
  import opened DramTheorems
  import opened DramCommandQueue
  import opened DramController
  import opened DramCollision

  // What is known of the state of a run.

  ghost predicate Running(p: Params, m: Mem) {
    Sane(p) && Placed(p) && Consistent(p, m) && (BusWide(p) ==> BusOk(p, m))
  }

  lemma FreshRuns(p: Params, m: Mem)
    requires Sane(p) && Fresh(p, m)
    ensures Running(p, m)
  {
    hide Sane, Consistent, BusOk, BusWide, Fresh;
    assert Placed(p) by { SaneFacts(p); }
    FreshConsistent(p, m);
  }

  lemma ArriveRuns(p: Params, m: Mem, isWrite: bool, addr: nat)
    requires Running(p, m)
    ensures Running(p, Arrive(m, isWrite, addr))
  {
    hide Consistent, BusOk, Sane, Placed, BusWide;
    StepConsistent(p, m, Arrives(isWrite, addr));
    if BusWide(p) { ArriveWrites(p, m, isWrite, addr); }
  }

  /** A cycle: the rank accepts its command, the answer finds its read, and the bus is free if it is wide. */
  lemma CycleRuns(p: Params, m: Mem, refresh: Option<nat>, pick: Pick)
    requires Running(p, m) && CycleAllowed(p, m, refresh, pick)
    ensures Running(p, Cycle(p, m, refresh, pick))
    ensures !RankRefuses(p, m.rows, m.now) && !Unmatched(BeforeAnswer(p, m, refresh, pick))
    ensures BusWide(p) ==> !Collides(m.data.writes)
    ensures m.rows.bus.Some? ==> InRange(p, m.rows.bus.value.at.rank, m.rows.bus.value.at.bank)
  {
    hide Sane, Placed, BusWide, CycleAllowed, Cycle, BusOk, Unmatched, BeforeAnswer, Collides, RankRefuses, SchedOk,
      AllAgree, WindowsOk, OrderOk, ReadPipesOk, ReadsOk, CrossOk, TracesOk, Horizons, LogOk, Spaced, GridOf,
      TableGrid, TickAll, ReceiveAll;
    StepConsistent(p, m, Clock(refresh, pick));
    PipesFree(p, m);
    CycleConserves(p, m, refresh, pick);
    if BusWide(p) { CycleWrites(p, m, refresh, pick); }
  }

  /** What Split does to the answers does not depend on the data in the pipes. */
  lemma SplitAnswers(p: Params, st: Sched, waiting: seq<Txn>, d: Data)
    requires Shaped(p, st) && Placed(p)
    ensures var x, y := Split(p, st, waiting, d), Split(p, st, waiting, Data([], EmptyPipe, d.pending, d.returned));
            && x.0 == y.0 && x.1 == y.1 && x.2 == d.(pending := y.2.pending) && y.2.returned == d.returned
            && Unmatched(x.2) == Unmatched(y.2)
            && Answered(x.2) == x.2.(pending := Answered(y.2).pending, returned := Answered(y.2).returned)
  {
    hide Enqueued, HasRoom;
  }

  /** The parts of a cycle, as the controller and the ranks compute them. */
  ghost function CycleParts(p: Params, m: Mem, refresh: Option<nat>, pick: Pick): Mem
    requires Placed(p) && CycleAllowed(p, m, refresh, pick)
  {
    var st, banks := Prepared(m.sched, refresh), TickAll(p, m.rows.banks);
    var c := Command(p, st, pick);
    var d := Data([], EmptyPipe, m.data.pending, m.data.returned + ReturnedBy(m.data.back));
    var (st', waiting, d') := Split(p, Picked(p, st, pick), m.waiting, d);
    Mem(m.now + 1,
        Rows(if c.Some? then IssueAll(p, banks, c.value, m.now) else banks,
            ReceiveAll(p, m.rows.tables, m.rows.bus, m.now), c),
        st',
        Data(ReceiveRead(p, TickPipes(m.data.back, Burst(p)), m.rows.bus),
             IssueData(p, Data([], Ticked(m.data.writes, Burst(p)), [], []), c).writes,
             Answered(d').pending, Answered(d').returned),
        waiting, IssuePast(m.past, c, m.now))
  }

  lemma CycleIsParts(p: Params, m: Mem, refresh: Option<nat>, pick: Pick)
    requires Placed(p) && CycleAllowed(p, m, refresh, pick)
    ensures Cycle(p, m, refresh, pick) == CycleParts(p, m, refresh, pick)
    ensures var d := Data([], EmptyPipe, m.data.pending, m.data.returned + ReturnedBy(m.data.back));
            Unmatched(BeforeAnswer(p, m, refresh, pick))
                == Unmatched(Split(p, Picked(p, Prepared(m.sched, refresh), pick), m.waiting, d).2)
  {
    hide CycleAllowed, Split, Picked, Prepared, Placed, TickAll, IssueAll, ReceiveAll, TickPipes, Eligible, Prior,
      Enqueued, Answered, Unmatched, Command, Ticked, ReturnedBy, Pushed;
    var st := Prepared(m.sched, refresh);
    AllowedValid(p, m, refresh, pick);
    SplitAnswers(p, Picked(p, st, pick), m.waiting, IssueData(p, Move(p, m.data, m.rows.bus), Command(p, st, pick)));
  }

  lemma AllowedValid(p: Params, m: Mem, refresh: Option<nat>, pick: Pick)
    requires CycleAllowed(p, m, refresh, pick)
    ensures var st := Prepared(m.sched, refresh); Shaped(p, st) && DramScheduling.Valid(p, st, pick)
  {
  }

  // The ranks.

  /** A rank as its constructor leaves it. */
  ghost predicate NewRank(rank: Rank, p: Params, id: nat)
    reads rank, rank.bankStates
  {
    && rank.Valid() && rank.p == p && rank.id == id && rank.Returning() == EmptyPipe
    && forall b :: 0 <= b < p.banks ==> rank.bankStates[b] == FreshRankBank
  }

  ghost predicate AllDistinct(ranks: seq<Rank>) {
    forall r, s :: 0 <= r < s < |ranks| ==> ranks[r] != ranks[s] && ranks[r].bankStates != ranks[s].bankStates
  }

  method BuildRanks(p: Params) returns (ranks: seq<Rank>)
    ensures |ranks| == p.ranks && AllDistinct(ranks)
    ensures forall r :: 0 <= r < p.ranks ==> NewRank(ranks[r], p, r) && fresh(ranks[r]) && fresh(ranks[r].bankStates)
  {
    ranks := [];
    for i := 0 to p.ranks
      invariant |ranks| == i && AllDistinct(ranks)
      invariant forall r :: 0 <= r < i ==> NewRank(ranks[r], p, r) && fresh(ranks[r]) && fresh(ranks[r].bankStates)
    {
      var rank := new Rank(p, i);
      ranks := ranks + [rank];
    }
  }

  ghost function PipesOf(ranks: seq<Rank>): (pipes: seq<Pipe>)
    reads ranks
    ensures |pipes| == |ranks| && forall r :: 0 <= r < |ranks| ==> pipes[r] == ranks[r].Returning()
  {
    if ranks == [] then [] else PipesOf(ranks[..|ranks| - 1]) + [ranks[|ranks| - 1].Returning()]
  }

  ghost function TablesOf(ranks: seq<Rank>): (tables: seq<seq<RankBank>>)
    reads set r | r in ranks :: r.bankStates
    ensures |tables| == |ranks| && forall r :: 0 <= r < |ranks| ==> tables[r] == ranks[r].bankStates[..]
  {
    if ranks == [] then [] else TablesOf(ranks[..|ranks| - 1]) + [ranks[|ranks| - 1].bankStates[..]]
  }

  ghost predicate RanksOk(p: Params, ranks: seq<Rank>)
    reads ranks
  {
    |ranks| == p.ranks && AllDistinct(ranks) && forall r ::
        0 <= r < |ranks| ==> ranks[r].Valid() && ranks[r].p == p && ranks[r].id == r
  }

  lemma OthersDiffer(ranks: seq<Rank>, i: nat)
    requires AllDistinct(ranks) && i < |ranks|
    ensures forall r :: 0 <= r < |ranks| && r != i ==> ranks[r] != ranks[i]
  {
  }

  lemma NoneReturned(pipes: seq<Pipe>)
    ensures ReturnedBy(pipes[..0]) == []
  {
  }

  lemma ReturnedNext(pipes: seq<Pipe>, i: nat)
    requires i < |pipes|
    ensures ReturnedBy(pipes[..i + 1]) ==
            ReturnedBy(pipes[..i]) + (if Delivered(pipes[i]).Some? then [Delivered(pipes[i]).value.addr] else [])
  {
    assert pipes[..i + 1][..i] == pipes[..i];
  }

  ghost function StartMem(controller: MemoryController, ranks: seq<Rank>): Mem
    reads controller, controller.commandQueue, ranks, set r | r in ranks :: r.bankStates
  {
    Mem(0, Rows(controller.bankStates, TablesOf(ranks), controller.outgoingCmdPacket), controller.commandQueue.State(),
        Data(PipesOf(ranks), controller.Writes(), controller.pendingReadTransactions, controller.returnTransaction),
        controller.transactionQueue, Past([], []))
  }

  lemma StartedFresh(p: Params, controller: MemoryController, ranks: seq<Rank>)
    requires controller.Started(p) && |ranks| == p.ranks && AllDistinct(ranks)
    requires forall r :: 0 <= r < p.ranks ==> NewRank(ranks[r], p, r)
    ensures Fresh(p, StartMem(controller, ranks)) && controller.Valid() && controller.p == p && RanksOk(p, ranks)
  {
    hide PipesOf, TablesOf, Wellformed;
  }

  class MemorySystem {
    const p: Params
    const controller: MemoryController
    const ranks: seq<Rank>
    var now: int
    var arrived: nat
    ghost var mem: Mem

    ghost predicate Built()
      reads this, controller, controller.commandQueue, ranks
    {
      controller.p == p && controller.Valid() && RanksOk(p, ranks)
    }

    /** The run's state, as the objects hold it. */
    ghost predicate Mirrors(m: Mem)
      reads this, controller, controller.commandQueue, ranks, set r | r in ranks :: r.bankStates
    {
      && m.now == now && |m.past.accepted| == arrived
      && m.rows == Rows(controller.bankStates, TablesOf(ranks), controller.outgoingCmdPacket)
      && m.sched == controller.commandQueue.State() && m.waiting == controller.transactionQueue
      && m.data == Data(PipesOf(ranks), controller.Writes(), controller.pendingReadTransactions,
         controller.returnTransaction)
    }

    ghost predicate Valid()
      reads this, controller, controller.commandQueue, ranks, set r | r in ranks :: r.bankStates
    {
      Built() && Mirrors(mem) && Running(p, mem)
    }

    constructor (p: Params, transQueueDepth: nat)
      requires Sane(p)
      ensures Valid() && this.p == p && Fresh(p, mem)
      ensures fresh(controller) && fresh(controller.commandQueue)
      ensures forall r :: 0 <= r < |ranks| ==> fresh(ranks[r]) && fresh(ranks[r].bankStates)
    {
      hide Sane, Running, PipesOf, TablesOf, MemoryController.Started, NewRank, Fresh, MemoryController.Valid,
        AllDistinct, RanksOk;
      var owner := new MemoryController(p, transQueueDepth);
      var all := BuildRanks(p);
      StartedFresh(p, owner, all);
      FreshRuns(p, StartMem(owner, all));
      this.p, controller, ranks, now, arrived := p, owner, all, 0, 0;
      mem := StartMem(owner, all);
    }

    method AddTransaction(isWrite: bool, addr: nat) returns (accepted: bool)
      requires Valid()
      modifies this, controller
      ensures Valid() && accepted == old(controller.WillAcceptTransaction())
      ensures mem == if accepted then Arrive(old(mem), isWrite, addr) else old(mem)
    {
      hide Running, MemoryController.Valid, PipesOf, TablesOf, RanksOk;
      accepted := controller.AddTransaction(Txn(isWrite, addr, arrived));
      if accepted {
        arrived := arrived + 1;
        ArriveRuns(p, mem, isWrite, addr);
        mem := Arrive(mem, isWrite, addr);
      }
    }

    /** The ranks move their read data on; what leaves a bus goes to the controller. */
    method UpdateRanks()
      requires Built()
      modifies ranks, controller`returnTransaction
      ensures Built() && PipesOf(ranks) == TickPipes(old(PipesOf(ranks)), Burst(p))
      ensures controller.returnTransaction == old(controller.returnTransaction) + ReturnedBy(old(PipesOf(ranks)))
    {
      hide Ticked, Delivered, MemoryController.Valid, PipesOf, ReturnedBy, AllDistinct, Rank.Valid;
      ghost var pipes, returned := PipesOf(ranks), controller.returnTransaction;
      NoneReturned(pipes);
      for i := 0 to |ranks|
        invariant Built()
        invariant forall r :: 0 <= r < i ==> ranks[r].Returning() == Ticked(pipes[r], Burst(p))
        invariant forall r :: i <= r < |ranks| ==> ranks[r].Returning() == pipes[r]
        invariant controller.returnTransaction == returned + ReturnedBy(pipes[..i])
      {
        OthersDiffer(ranks, i);
        var delivered := ranks[i].Update();
        if delivered.Some? { controller.ReceiveFromBus(delivered.value); }
        ReturnedNext(pipes, i);
      }
      assert pipes[..|ranks|] == pipes;
    }

    /** The command popped in the last cycle reaches its rank. */
    method Deliver(c: Option<Packet>) returns (ok: bool)
      requires RanksOk(p, ranks) && (c.Some? ==> InRange(p, c.value.at.rank, c.value.at.bank))
      modifies ranks, set r | r in ranks :: r.bankStates
      ensures RanksOk(p, ranks) && ok == !RankRefuses(p, Rows([], old(TablesOf(ranks)), c), now)
      ensures ok ==> TablesOf(ranks) == ReceiveAll(p, old(TablesOf(ranks)), c, now)
      ensures ok ==> PipesOf(ranks) == ReceiveRead(p, old(PipesOf(ranks)), c)
    {
      hide Legal, ReceiveRow, PipesOf, TablesOf;
      ok := true;
      if c.Some? {
        ok := ranks[c.value.at.rank].ReceiveFromBus(c.value, now);
      }
    }

    /** The state between the controller's part of a cycle and the delivery of its command. */
    ghost predicate Halfway(m: Mem, m': Mem)
      reads this, controller, controller.commandQueue, ranks, set r | r in ranks :: r.bankStates
    {
      && controller.bankStates == m'.rows.banks && controller.outgoingCmdPacket == m'.rows.bus
      && controller.commandQueue.State() == m'.sched && controller.transactionQueue == m'.waiting
      && controller.Writes() == m'.data.writes && controller.pendingReadTransactions == m'.data.pending
      && controller.returnTransaction == m'.data.returned
      && TablesOf(ranks) == m.rows.tables && PipesOf(ranks) == TickPipes(m.data.back, Burst(p))
    }

    method UpdateParts(refresh: Option<nat>) returns (delivered: Option<Packet>, ghost pick: Pick, ok: bool)
      requires Built() && Placed(p) && Mirrors(mem) && Shaped(p, mem.sched)
               && (refresh.Some? ==> refresh.value < p.ranks)
      modifies controller, controller.commandQueue, ranks
      ensures Built() && CycleAllowed(p, mem, refresh, pick) && Halfway(mem, CycleParts(p, mem, refresh, pick))
      ensures delivered == mem.rows.bus && ok == (!Collides(mem.data.writes)
              && !Unmatched(BeforeAnswer(p, mem, refresh, pick)))
    {
      hide Placed, PipesOf, TablesOf, RanksOk, MemoryController.Valid, TickAll, IssueAll, Picked, Split, Eligible,
        Prior, Collides, Ticked, Unmatched, Answered, Command, DramScheduling.Valid, Wellformed, Prepared, ReceiveAll,
        ReceiveRead, TickPipes, ReturnedBy, Shaped, IssueData, BeforeAnswer, Cycle;
      UpdateRanks();
      delivered, pick, ok := controller.Update(refresh, now);
      CycleIsParts(p, mem, refresh, pick);
    }

    /** What is left of a cycle: the ranks read the bus, and the clock moves on. */
    ghost predicate Completes(m: Mem, m': Mem) {
      && m'.rows.tables == ReceiveAll(p, m.rows.tables, m.rows.bus, m.now)
      && m'.data.back == ReceiveRead(p, TickPipes(m.data.back, Burst(p)), m.rows.bus)
      && m'.now == m.now + 1 && m'.past.accepted == m.past.accepted
      && (m.rows.bus.Some? ==> InRange(p, m.rows.bus.value.at.rank, m.rows.bus.value.at.bank))
      && !RankRefuses(p, m.rows, m.now)
    }

    method Complete(delivered: Option<Packet>, ghost m': Mem)
      requires Built() && Halfway(mem, m') && Completes(mem, m') && delivered == mem.rows.bus
      requires now == mem.now && arrived == |mem.past.accepted|
      modifies this, ranks, set r | r in ranks :: r.bankStates
      ensures Built() && Mirrors(m') && mem == m'
    {
      hide PipesOf, TablesOf, RanksOk, MemoryController.Valid, RankRefuses, ReceiveAll, ReceiveRead, TickPipes;
      SameRefusal(p, mem.rows, now);
      var legal := Deliver(delivered);
      now := now + 1;
      mem := m';
    }

    /** One cycle of the channel.  False stands for an error exit; only a collision on the data bus can cause one. */
    method Update(refresh: Option<nat>) returns (ghost pick: Pick, ok: bool)
      requires Valid() && (refresh.Some? ==> refresh.value < p.ranks)
      modifies this, controller, controller.commandQueue, ranks, set r | r in ranks :: r.bankStates
      ensures Valid() && CycleAllowed(p, old(mem), refresh, pick) && Placed(p)
              && mem == Cycle(p, old(mem), refresh, pick)
      ensures ok == !Collides(old(mem).data.writes) && (BusWide(p) ==> ok)
    {
      hide Running, Sane, Placed, Built, Halfway, Collides, Unmatched, RankRefuses, ReceiveAll, ReceiveRead, TickPipes,
        BusWide, Shaped, CycleAllowed, CycleParts, BeforeAnswer, Cycle, PipesOf, TablesOf;
      RunningPlaced(p, mem);
      var delivered;
      delivered, pick, ok := UpdateParts(refresh);
      CycleRuns(p, mem, refresh, pick);
      CycleIsParts(p, mem, refresh, pick);
      PartsDelivered(p, mem, refresh, pick);
      Complete(delivered, Cycle(p, mem, refresh, pick));
    }
  }

  lemma PartsDelivered(p: Params, m: Mem, refresh: Option<nat>, pick: Pick)
    requires Placed(p) && CycleAllowed(p, m, refresh, pick)
    ensures var m' := CycleParts(p, m, refresh, pick);
            && m'.rows.tables == ReceiveAll(p, m.rows.tables, m.rows.bus, m.now)
            && m'.data.back == ReceiveRead(p, TickPipes(m.data.back, Burst(p)), m.rows.bus)
            && m'.now == m.now + 1 && m'.past.accepted == m.past.accepted
  {
    hide CycleAllowed, Split, Picked, Prepared, Placed, TickAll, IssueAll, ReceiveAll, TickPipes, Answered, Command,
      Ticked, ReturnedBy;
  }

  lemma RunningPlaced(p: Params, m: Mem)
    requires Running(p, m)
    ensures Placed(p) && Sane(p) && Shaped(p, m.sched)
  {
    hide SpacingOk, WindowsOk, OrderOk, ReadPipesOk, ReadsOk, CrossOk, TracesOk, BusOk, Linked;
  }

  lemma SameRefusal(p: Params, w: Rows, now: int)
    ensures RankRefuses(p, Rows([], w.tables, w.bus), now) == RankRefuses(p, w, now)
  {
  }
}
