/** The rank and the memory controller as objects that update their tables in place. */
module DramController {
  import opened Basics
  import opened DramBanks
  import opened DramQueues
  import opened DramScheduling
  import opened DramSchedulerSteps
  import opened DramPipes
  import opened DramRuns
  import opened DramCommandQueue

  /** A rank: its bank table, and the read data waiting for its turn on the bus. */
  class Rank {
    const p: Params
    const id: nat
    const bankStates: array<RankBank>
    var readReturnPacket: seq<Packet>
    var readReturnCountdown: seq<int>
    var outgoingDataPacket: Option<Packet>
    var dataCyclesLeft: int

    ghost predicate Valid() reads this { bankStates.Length == p.banks && |readReturnPacket| == |readReturnCountdown| }

    ghost function Returning(): Pipe
      reads this
    {
      Pipe(readReturnPacket, readReturnCountdown, outgoingDataPacket, dataCyclesLeft)
    }

    constructor (p: Params, id: nat)
      ensures Valid() && this.p == p && this.id == id && fresh(bankStates) && Returning() == EmptyPipe
      ensures forall b :: 0 <= b < p.banks ==> bankStates[b] == FreshRankBank
    {
      this.p, this.id := p, id;
      bankStates := new RankBank[p.banks](_ => FreshRankBank);
      readReturnPacket, readReturnCountdown, outgoingDataPacket, dataCyclesLeft := [], [], None, 0;
    }

    /** False where the source reports an illegal command and exits. */
    method ReceiveFromBus(c: Packet, now: int) returns (ok: bool)
      requires Valid() && c.at.bank < p.banks && c.at.rank == id
      modifies this, bankStates
      ensures Valid()
      ensures ok <==> forall b :: 0 <= b < p.banks && Concerns(c, id, b) ==> Legal(old(bankStates[b]), c, now)
      ensures ok ==> bankStates[..] == ReceiveRow(p, old(bankStates[..]), c, now)
      ensures ok ==> Returning() == if IsRead(c.kind) then Pushed(old(Returning()), c, RL(p)) else old(Returning())
    {
      if c.kind == Refresh {
        ok := ReceiveRefresh(c, now);
        return;
      }
      ok := Legal(bankStates[c.at.bank], c, now);
      if !ok { return; }
      UpdateBanks(c, now);
      if IsRead(c.kind) {
        readReturnPacket := readReturnPacket + [c];
        readReturnCountdown := readReturnCountdown + [RL(p)];
      }
    }

    /** A refresh checks each bank as it goes along. */
    method ReceiveRefresh(c: Packet, now: int) returns (ok: bool)
      requires Valid() && c.kind == Refresh
      modifies bankStates
      ensures ok <==> forall b :: 0 <= b < p.banks ==> !old(bankStates[b].open)
      ensures ok ==> bankStates[..] == ReceiveRow(p, old(bankStates[..]), c, now)
    {
      for i := 0 to p.banks
        invariant forall b ::
                  0 <= b < i ==>
                  !old(bankStates[b].open) && bankStates[b] == ReceiveBank(p, old(bankStates[b]), b, c, now)
        invariant forall b :: i <= b < p.banks ==> bankStates[b] == old(bankStates[b])
      {
        if bankStates[i].open { return false; }
        bankStates[i] := bankStates[i].(nextActivate := now + p.tRFC);
      }
      return true;
    }

    /** The state table after any other command: the bank it goes to, and what it means for the others. */
    method UpdateBanks(c: Packet, now: int)
      requires Valid() && c.at.bank < p.banks && c.kind != Refresh
      modifies bankStates
      ensures bankStates[..] == ReceiveRow(p, old(bankStates[..]), c, now)
    {
      for i := 0 to p.banks
        invariant forall b :: 0 <= b < i ==> bankStates[b] == ReceiveBank(p, old(bankStates[b]), b, c, now)
        invariant forall b :: i <= b < p.banks ==> bankStates[b] == old(bankStates[b])
      {
        var s := bankStates[i];
        if i == c.at.bank {
          match c.kind
          case Read => s := s.(nextPrecharge := Max(s.nextPrecharge, now + ReadToPre(p)));
          case Write => s := s.(nextPrecharge := Max(s.nextPrecharge, now + WriteToPre(p)));
          case ReadP => s := s.(open := false, nextActivate := Max(s.nextActivate, now + ReadAutoPre(p)));
          case WriteP => s := s.(open := false, nextActivate := Max(s.nextActivate, now + WriteAutoPre(p)));
          case Precharge => s := s.(open := false, nextActivate := Max(s.nextActivate, now + p.tRP));
          case Activate =>
            s := s.(open := true, nextActivate := now + p.tRC, row := c.at.row, nextWrite := now + (p.tRCD - p.AL),
                    nextRead := now + (p.tRCD - p.AL), nextPrecharge := now + p.tRAS);
        } else if c.kind == Activate {
          s := s.(nextActivate := Max(s.nextActivate, now + p.tRRD));
        }
        if IsRead(c.kind) {
          s := s.(nextRead := Max(s.nextRead, now + ColumnGap(p)), nextWrite := Max(s.nextWrite, now + ReadToWrite(p)));
        } else if IsWrite(c.kind) {
          s := s.(nextRead := Max(s.nextRead, now + WriteToReadBank(p)),
              nextWrite := Max(s.nextWrite, now + ColumnGap(p)));
        }
        bankStates[i] := s;
      }
    }

    /** The read data pipeline moves on by one cycle; the packet that left the bus is handed over. */
    method Update() returns (delivered: Option<Packet>)
      requires Valid()
      modifies this
      ensures Valid() && delivered == Delivered(old(Returning())) && Returning() == Ticked(old(Returning()), Burst(p))
    {
      delivered := None;
      if outgoingDataPacket.Some? {
        if dataCyclesLeft == 1 {
          delivered := outgoingDataPacket;
          outgoingDataPacket, dataCyclesLeft := None, 0;
        } else {
          dataCyclesLeft := dataCyclesLeft - 1;
        }
      }
      readReturnCountdown := CountDown(readReturnCountdown);
      if |readReturnCountdown| > 0 && readReturnCountdown[0] == 0 {
        outgoingDataPacket, dataCyclesLeft := Some(readReturnPacket[0]), Burst(p);
        readReturnPacket, readReturnCountdown := readReturnPacket[1..], readReturnCountdown[1..];
      }
    }
  }

  class MemoryController {
    const p: Params
    const transQueueDepth: nat
    const commandQueue: CommandQueue
    var bankStates: Banks
    var outgoingCmdPacket: Option<Packet>
    var writeDataToSend: seq<Packet>
    var writeDataCountdown: seq<int>
    var outgoingDataPacket: Option<Packet>
    var dataCyclesLeft: int
    var transactionQueue: seq<Txn>
    var pendingReadTransactions: seq<nat>
    var returnTransaction: seq<nat>

    ghost function Writes(): Pipe
      reads this
    {
      Pipe(writeDataToSend, writeDataCountdown, outgoingDataPacket, dataCyclesLeft)
    }

    ghost predicate Valid() reads this, commandQueue {
      && Sane(p) && commandQueue.p == p && GridOf(p, bankStates) && commandQueue.Fits(bankStates)
      && |writeDataToSend| == |writeDataCountdown|
    }

    /** Fresh banks, empty queues and an idle bus. */
    ghost predicate Started(p: Params) reads this, commandQueue {
      && Valid() && this.p == p && outgoingCmdPacket == None && Writes() == EmptyPipe
      && transactionQueue == [] && pendingReadTransactions == [] && returnTransaction == []
      && (forall r: nat, b: nat :: InRange(p, r, b) ==> bankStates[r][b] == FreshBank)
      && commandQueue.Started()
    }

    constructor (p: Params, transQueueDepth: nat)
      requires Sane(p)
      ensures Started(p) && this.transQueueDepth == transQueueDepth && fresh(commandQueue)
    {
      this.p, this.transQueueDepth := p, transQueueDepth;
      commandQueue := new CommandQueue(p);
      bankStates := seq(p.ranks, (r: nat) => seq(p.banks, (b: nat) => FreshBank));
      outgoingCmdPacket, outgoingDataPacket, dataCyclesLeft := None, None, 0;
      writeDataToSend, writeDataCountdown := [], [];
      transactionQueue, pendingReadTransactions, returnTransaction := [], [], [];
    }

    // One cycle.

    /**
     The controller's part of a cycle.  The command popped in the last cycle is handed to its rank, and
     the new one waits on the bus.  False stands for an error exit.
     */
    method Update(refresh: Option<nat>, now: int) returns (delivered: Option<Packet>, ghost pick: Pick, ok: bool)
      requires Valid() && Placed(p) && (refresh.Some? ==> refresh.value < p.ranks)
      modifies this, commandQueue
      ensures Valid() && delivered == old(outgoingCmdPacket)
      ensures var st, banks := Prepared(old(commandQueue.State()), refresh), TickAll(p, old(bankStates));
              && Wellformed(p, st, banks) && Allowed(p, st, banks, pick, now) && DramScheduling.Valid(p, st, pick)
              && var c := Command(p, st, pick);
                 && outgoingCmdPacket == c && bankStates
                    == (if c.Some? then IssueAll(p, banks, c.value, now) else banks)
                 && Writes() == IssueData(p, Data([], Ticked(old(Writes()), Burst(p)), [], []), c).writes
                 && var d := Data([], EmptyPipe, old(pendingReadTransactions), old(returnTransaction));
                    var (st', waiting, d') := Split(p, Picked(p, st, pick), old(transactionQueue), d);
                    && commandQueue.State() == st' && transactionQueue == waiting
                    && pendingReadTransactions == Answered(d').pending && returnTransaction == Answered(d').returned
                    && ok == (!Collides(old(Writes())) && !Unmatched(d'))
    {
      hide TickAll, IssueAll, Picked, Split, Eligible, Prior, Collides, Ticked, Unmatched, Answered, Command,
        DramScheduling.Valid, Wellformed, GridOf, Sane;
      ghost var st, banks := Prepared(commandQueue.State(), refresh), TickAll(p, bankStates);
      PreparedTwice(commandQueue.State(), refresh);
      var free;
      delivered, free := Begin(refresh);
      var command;
      command, pick := PopCommand(now);
      RangesPicked(p, st, banks, bankStates, pick);
      var matched := Finish();
      ok := free && matched;
    }

    /** Countdowns, the command for the rank, the data bus, and the refresh flag. */
    method Begin(refresh: Option<nat>) returns (delivered: Option<Packet>, ok: bool)
      requires Valid() && (refresh.Some? ==> refresh.value < p.ranks)
      modifies `bankStates, `outgoingCmdPacket, `outgoingDataPacket, `dataCyclesLeft, `writeDataToSend,
          `writeDataCountdown, commandQueue`refresh
      ensures Valid() && delivered == old(outgoingCmdPacket) && outgoingCmdPacket == None
      ensures bankStates == TickAll(p, old(bankStates)) && Writes() == Ticked(old(Writes()), Burst(p))
              && ok == !Collides(old(Writes()))
      ensures commandQueue.State() == old(commandQueue.State()).(refresh := if refresh.Some? then refresh
              else old(commandQueue.refresh))
    {
      hide TickAll, Ticked, Collides, Wellformed, GridOf, Sane;
      RangesKept(p, commandQueue.State(), bankStates, refresh);
      UpdateBankStates();
      delivered := outgoingCmdPacket;
      outgoingCmdPacket := None;
      ok := SendWriteData();
      if refresh.Some? { commandQueue.NeedRefresh(refresh.value); }
    }

    /** A transaction is split, and one answer is returned. */
    method Finish() returns (ok: bool)
      requires Valid() && Placed(p)
      modifies `transactionQueue, `pendingReadTransactions, `returnTransaction, commandQueue`queues
      ensures Valid()
      ensures var d := Data([], EmptyPipe, old(pendingReadTransactions), old(returnTransaction));
              var (st', waiting, d') := Split(p, old(commandQueue.State()), old(transactionQueue), d);
              && commandQueue.State() == st' && transactionQueue == waiting
              && pendingReadTransactions == Answered(d').pending && returnTransaction == Answered(d').returned
                 && ok == !Unmatched(d')
    {
      hide Split, Unmatched, Answered, Wellformed, Sane;
      ghost var st := commandQueue.State();
      WellformedShaped(p, st, bankStates);
      ScheduleTransaction();
      RangesSplit(p, st, bankStates, old(transactionQueue), Data([], EmptyPipe, old(pendingReadTransactions), []));
      SplitData(p, st, old(transactionQueue), old(pendingReadTransactions), old(returnTransaction));
      ok := ReturnReadData();
    }

    /** The next command, its effect on the bank states, and its data if it is a write. */
    method PopCommand(now: int) returns (c: Option<Packet>, ghost pick: Pick)
      requires Valid() && outgoingCmdPacket == None
      modifies `bankStates, `outgoingCmdPacket, `writeDataToSend, `writeDataCountdown, commandQueue
      ensures var st := Prepared(old(commandQueue.State()), None);
              && Wellformed(p, st, old(bankStates)) && Allowed(p, st, old(bankStates), pick, now)
                 && DramScheduling.Valid(p, st, pick)
              && c == Command(p, st, pick) && outgoingCmdPacket == c && commandQueue.State() == Picked(p, st, pick)
              && bankStates == (if c.Some? then IssueAll(p, old(bankStates), c.value, now) else old(bankStates))
              && Writes() == IssueData(p, Data([], old(Writes()), [], []), c).writes
      ensures Inside(p, commandQueue.next) && Inside(p, commandQueue.nextPre) && GridOf(p, bankStates)
      ensures |writeDataToSend| == |writeDataCountdown|
    {
      hide IssueAll, Picked, Eligible, Prior, Command, DramScheduling.Valid;
      ghost var st := Prepared(commandQueue.State(), None);
      ghost var banks := bankStates;
      c, pick := commandQueue.Pop(bankStates, now);
      if c.Some? {
        if IsWrite(c.value.kind) {
          writeDataToSend := writeDataToSend + [c.value];
          writeDataCountdown := writeDataCountdown + [WL(p)];
        }
        IssueCommand(c.value, now);
        GridIssued(p, banks, c.value, now);
        outgoingCmdPacket := c;
      }
    }

    // Bank states.

    /** The countdowns of all banks run, and those that end change the bank's state. */
    method UpdateBankStates()
      requires GridOf(p, bankStates)
      modifies `bankStates
      ensures bankStates == TickAll(p, old(bankStates))
    {
      for i := 0 to p.ranks
        invariant |bankStates| == p.ranks
        invariant forall r :: 0 <= r < i ==> bankStates[r] == TickRow(p, old(bankStates)[r])
        invariant forall r :: i <= r < p.ranks ==> bankStates[r] == old(bankStates)[r]
      {
        var row := bankStates[i];
        for j := 0 to p.banks
          invariant |row| == p.banks
          invariant forall b :: 0 <= b < j ==> row[b] == TickBank(p, old(bankStates)[i][b])
          invariant forall b :: j <= b < p.banks ==> row[b] == old(bankStates)[i][b]
        {
          var s := row[j];
          if s.countdown > 0 {
            s := s.(countdown := s.countdown - 1);
            if s.countdown == 0 {
              match s.last
              case WriteP => s := s.(state := Precharging, last := Precharge, countdown := p.tRP);
              case ReadP => s := s.(state := Precharging, last := Precharge, countdown := p.tRP);
              case Refresh => s := s.(state := Idle);
              case Precharge => s := s.(state := Idle);
              case _ =>
            }
          }
          row := row[j := s];
        }
        bankStates := bankStates[i := row];
      }
    }

    /** What a command means for one bank of the table: its own bank first, then the horizons of the others. */
    method IssueTo(s0: BankState, rank: nat, bank: nat, c: Packet, now: int) returns (s: BankState)
      ensures s == IssueBank(p, s0, rank, bank, c, now)
    {
      s := s0;
      var mine := rank == c.at.rank && bank == c.at.bank;
      match c.kind
      case Read =>
        if mine { s := s.(nextPrecharge := Max(now + ReadToPre(p), s.nextPrecharge), last := Read); }
        s := AfterRead(p, s, rank == c.at.rank, now);
      case ReadP =>
        if mine {
          s := s.(nextActivate := Max(now + ReadAutoPre(p), s.nextActivate), last := ReadP, countdown := ReadToPre(p));
        }
        s := AfterRead(p, s, rank == c.at.rank, now);
        if mine { s := s.(nextRead := s.nextActivate, nextWrite := s.nextActivate); }
      case Write =>
        if mine { s := s.(nextPrecharge := Max(now + WriteToPre(p), s.nextPrecharge), last := Write); }
        s := AfterWrite(p, s, rank == c.at.rank, now);
      case WriteP =>
        if mine {
          s := s.(nextActivate := Max(now + WriteAutoPre(p), s.nextActivate), last := WriteP,
              countdown := WriteToPre(p));
        }
        s := AfterWrite(p, s, rank == c.at.rank, now);
        if mine { s := s.(nextRead := s.nextActivate, nextWrite := s.nextActivate); }
      case Activate =>
        if mine {
          s := s.(state := RowActive, last := Activate, row := c.at.row);
          s := s.(nextActivate := Max(now + p.tRC, s.nextActivate),
              nextPrecharge := Max(now + p.tRAS, s.nextPrecharge));
          s := s.(nextRead := Max(now + (p.tRCD - p.AL), s.nextRead),
              nextWrite := Max(now + (p.tRCD - p.AL), s.nextWrite));
        } else if rank == c.at.rank {
          s := s.(nextActivate := Max(now + p.tRRD, s.nextActivate));
        }
      case Precharge =>
        if mine {
          s := s.(state := Precharging, last := Precharge, countdown := p.tRP);
          s := s.(nextActivate := Max(now + p.tRP, s.nextActivate));
        }
      case Refresh =>
        if rank == c.at.rank {
          s := s.(nextActivate := now + p.tRFC, state := Refreshing, last := Refresh, countdown := p.tRFC);
        }
    }

    method IssueCommand(c: Packet, now: int)
      requires GridOf(p, bankStates)
      modifies `bankStates
      ensures bankStates == IssueAll(p, old(bankStates), c, now)
    {
      hide IssueBank;
      for i := 0 to p.ranks
        invariant |bankStates| == p.ranks
        invariant forall r :: 0 <= r < i ==> bankStates[r] == IssueRow(p, old(bankStates)[r], r, c, now)
        invariant forall r :: i <= r < p.ranks ==> bankStates[r] == old(bankStates)[r]
      {
        var row := bankStates[i];
        ghost var before := bankStates;
        for j := 0 to p.banks
          invariant |row| == p.banks && bankStates == before
          invariant forall b :: 0 <= b < j ==> row[b] == IssueBank(p, old(bankStates)[i][b], i, b, c, now)
          invariant forall b :: j <= b < p.banks ==> row[b] == old(bankStates)[i][b]
        {
          var s := IssueTo(row[j], i, j, c, now);
          row := row[j := s];
        }
        bankStates := bankStates[i := row];
      }
    }

    // Data.

    /** False on the collision that the source reports before it exits. */
    method SendWriteData() returns (ok: bool)
      requires |writeDataToSend| == |writeDataCountdown|
      modifies `outgoingDataPacket, `dataCyclesLeft, `writeDataToSend, `writeDataCountdown
      ensures ok == !Collides(old(Writes())) && Writes() == Ticked(old(Writes()), Burst(p))
              && |writeDataToSend| == |writeDataCountdown|
    {
      ok := true;
      if outgoingDataPacket.Some? {
        if dataCyclesLeft == 1 {
          outgoingDataPacket, dataCyclesLeft := None, 0;
        } else {
          dataCyclesLeft := dataCyclesLeft - 1;
        }
      }
      writeDataCountdown := CountDown(writeDataCountdown);
      if |writeDataCountdown| > 0 && writeDataCountdown[0] == 0 {
        ok := outgoingDataPacket == None;
        outgoingDataPacket, dataCyclesLeft := Some(writeDataToSend[0]), Burst(p);
        writeDataToSend, writeDataCountdown := writeDataToSend[1..], writeDataCountdown[1..];
      }
    }

    /** Data from a rank joins the queue of answers. */
    method ReceiveFromBus(c: Packet)
      modifies `returnTransaction
      ensures returnTransaction == old(returnTransaction) + [c.addr] && Valid() == old(Valid())
    {
      returnTransaction := returnTransaction + [c.addr];
    }

    /** One answer per cycle goes to the CPU; false if no read is pending for it. */
    method ReturnReadData() returns (ok: bool)
      modifies `returnTransaction, `pendingReadTransactions
      ensures var d := Answered(Data([], EmptyPipe, old(pendingReadTransactions), old(returnTransaction)));
              pendingReadTransactions == d.pending && returnTransaction == d.returned
      ensures ok == !Unmatched(Data([], EmptyPipe, old(pendingReadTransactions), old(returnTransaction)))
    {
      if returnTransaction == [] { return true; }
      var i := 0;
      while i < |pendingReadTransactions| && pendingReadTransactions[i] != returnTransaction[0]
        invariant i <= |pendingReadTransactions|
        invariant forall j :: 0 <= j < i ==> pendingReadTransactions[j] != returnTransaction[0]
      {
        i := i + 1;
      }
      assert i == IndexOf(pendingReadTransactions, returnTransaction[0]);
      ok := i < |pendingReadTransactions|;
      if ok { pendingReadTransactions := Without(pendingReadTransactions, i); }
      returnTransaction := returnTransaction[1..];
    }

    // Transactions.

    predicate WillAcceptTransaction() reads this { |transactionQueue| < transQueueDepth }

    method AddTransaction(t: Txn) returns (accepted: bool)
      modifies `transactionQueue
      ensures accepted == old(WillAcceptTransaction()) && Valid() == old(Valid())
      ensures transactionQueue == if accepted then old(transactionQueue) + [t] else old(transactionQueue)
    {
      accepted := WillAcceptTransaction();
      if accepted { transactionQueue := transactionQueue + [t]; }
    }

    /** The first transaction with room is split into its two commands; the command queue cannot overflow. */
    method ScheduleTransaction()
      requires Valid() && Placed(p)
      modifies `transactionQueue, `pendingReadTransactions, commandQueue`queues
      ensures var d := Data([], EmptyPipe, old(pendingReadTransactions), []);
              var (st, waiting, d') := Split(p, old(commandQueue.State()), old(transactionQueue), d);
              commandQueue.State() == st && transactionQueue == waiting && pendingReadTransactions == d'.pending
      ensures commandQueue.next == old(commandQueue.next) && commandQueue.nextPre == old(commandQueue.nextPre)
    {
      var i := 0;
      while i < |transactionQueue|
        invariant pendingReadTransactions == old(pendingReadTransactions)
        invariant transactionQueue == old(transactionQueue) && commandQueue.State() == old(commandQueue.State())
        invariant i <= |transactionQueue|
        invariant FirstWithRoom(p, commandQueue.State(), transactionQueue, 0)
                  == FirstWithRoom(p, commandQueue.State(), transactionQueue, i)
      {
        var at := p.place(transactionQueue[i].addr);
        var room := commandQueue.HasRoomFor(2, at.rank, at.bank);
        if room { break; }
        i := i + 1;
      }
      if i < |transactionQueue| {
        var t := transactionQueue[i];
        transactionQueue := Without(transactionQueue, i);
        EnqueueBoth(t);
        if !t.isWrite { pendingReadTransactions := pendingReadTransactions + [t.addr]; }
      }
    }

    method EnqueueBoth(t: Txn)
      requires commandQueue.p == p && Shaped(p, commandQueue.State()) && Placed(p)
               && HasRoom(p, commandQueue.State(), t.addr)
      modifies commandQueue`queues
      ensures commandQueue.State() == Enqueued(p, old(commandQueue.State()), t.isWrite, t.addr, t.id)
    {
      var at := p.place(t.addr);
      ghost var st, q := commandQueue.State(), QueueAt(p, commandQueue.State(), at.rank, at.bank);
      var act, col := Packet(Activate, t.addr, at, t.id), Packet(ColumnKind(p, t.isWrite), t.addr, at, t.id);
      var ok := commandQueue.Enqueue(act);
      QueueSet(p, st, at.rank, at.bank, q + [act], q + [act] + [col]);
      var ok' := commandQueue.Enqueue(col);
      assert ok && ok';
      assert (q + [act]) + [col] == q + CommandsOf(p, t.isWrite, t.addr, t.id);
    }
  }

  lemma QueueSet(p: Params, st: Sched, rank: nat, bank: nat, q: Queue, q': Queue)
    requires Shaped(p, st) && InRange(p, rank, bank)
    ensures var st1 := WithQueue(p, st, rank, bank, q);
            Shaped(p, st1) && QueueAt(p, st1, rank, bank) == q
                && WithQueue(p, st1, rank, bank, q') == WithQueue(p, st, rank, bank, q')
  {
    var k := QueueIndex(p, bank);
    assert st.queues[rank][k := q][k := q'] == st.queues[rank][k := q'];
    assert st.queues[rank := st.queues[rank][k := q]][rank := st.queues[rank][k := q']]
        == st.queues[rank := st.queues[rank][k := q']];
  }

  lemma WellformedShaped(p: Params, st: Sched, banks: Banks)
    requires Wellformed(p, st, banks)
    ensures Shaped(p, st)
  {
  }

  lemma GridIssued(p: Params, banks: Banks, c: Packet, now: int)
    requires GridOf(p, banks)
    ensures GridOf(p, IssueAll(p, banks, c, now))
  {
  }

  /** The queues stay in range: when the countdowns run and a refresh is flagged, ... */
  lemma RangesKept(p: Params, st: Sched, banks: Banks, refresh: Option<nat>)
    requires Wellformed(p, st, banks) && (refresh.Some? ==> refresh.value < p.ranks)
    ensures GridOf(p, TickAll(p, banks))
    ensures Wellformed(p, st.(refresh := if refresh.Some? then refresh else st.refresh), TickAll(p, banks))
  {
    var st' := st.(refresh := if refresh.Some? then refresh else st.refresh);
    forall r, b | InRange(p, r, b)
      ensures QueueInRange(p, QueueAt(p, st', r, b))
    {
      assert QueueInRange(p, QueueAt(p, st, r, b));
    }
  }

  lemma PreparedTwice(st: Sched, refresh: Option<nat>)
    ensures Prepared(st.(refresh := if refresh.Some? then refresh else st.refresh), None) == Prepared(st, refresh)
  {
  }

  /** ... when a packet is taken, ... */
  lemma RangesPicked(p: Params, st: Sched, banks: Banks, banks': Banks, pick: Pick)
    requires Wellformed(p, st, banks) && DramScheduling.Valid(p, st, pick) && GridOf(p, banks')
    ensures Wellformed(p, Picked(p, st, pick), banks')
  {
    hide QueueInRange, Removed;
    var st' := Picked(p, st, pick);
    forall r, b | InRange(p, r, b) ensures QueueInRange(p, QueueAt(p, st', r, b)) {
      assert QueueInRange(p, QueueAt(p, st, r, b));
      if pick.Take? {
        assert QueueInRange(p, QueueAt(p, st, pick.rank, pick.bank));
        RangeRemoved(p, QueueAt(p, st, pick.rank, pick.bank), pick.i, pick.absorb);
      }
    }
  }

  lemma RangeRemoved(p: Params, q: Queue, i: nat, absorb: bool)
    requires QueueInRange(p, q) && i < |q| && (absorb ==> i > 0)
    ensures QueueInRange(p, Removed(q, i, absorb))
  {
  }

  /** ... and when a transaction is split. */
  lemma RangesSplit(p: Params, st: Sched, banks: Banks, waiting: seq<Txn>, d: Data)
    requires Wellformed(p, st, banks) && Placed(p)
    ensures Wellformed(p, Split(p, st, waiting, d).0, banks)
  {
    var st' := Split(p, st, waiting, d).0;
    forall r, b | InRange(p, r, b) ensures QueueInRange(p, QueueAt(p, st', r, b)) {
      assert QueueInRange(p, QueueAt(p, st, r, b));
    }
  }

  lemma SplitData(p: Params, st: Sched, waiting: seq<Txn>, pending: seq<nat>, returned: seq<nat>)
    requires Shaped(p, st) && Placed(p)
    ensures var x, y := Split(p, st, waiting, Data([], EmptyPipe, pending, [])),
            Split(p, st, waiting, Data([], EmptyPipe, pending, returned));
            x.0 == y.0 && x.1 == y.1 && y.2 == Data([], EmptyPipe, x.2.pending, returned)
  {
  }
}
