/** In every run, each command the controller pops is legal for its rank one cycle later. */
module DramSafety {
  import opened Basics
  import opened DramBanks
  import opened DramQueues
  import opened DramScheduling
  import opened DramSchedulerSteps
  import opened DramPipes
  import opened DramRuns

  ghost predicate TableGrid(p: Params, tables: seq<seq<RankBank>>) {
    |tables| == p.ranks && forall r :: 0 <= r < p.ranks ==> |tables[r]| == p.banks
  }

  ghost predicate AllAgree(p: Params, banks: Banks, tables: seq<seq<RankBank>>, now: int)
    requires GridOf(p, banks) && TableGrid(p, tables)
  {
    forall r: nat, b: nat :: InRange(p, r, b) ==> Agree(p, banks[r][b], tables[r][b], now)
  }

  /** Once the countdowns have run and the bus is read, controller and ranks agree. */
  ghost predicate Linked(p: Params, w: Rows, now: int) {
    && GridOf(p, w.banks) && TableGrid(p, w.tables) && TableGrid(p, ReceiveAll(p, w.tables, w.bus, now))
       && GridOf(p, TickAll(p, w.banks))
    && (w.bus.Some? ==> InRange(p, w.bus.value.at.rank, w.bus.value.at.bank))
    && AllAgree(p, TickAll(p, w.banks), ReceiveAll(p, w.tables, w.bus, now), now)
    && !RankRefuses(p, w, now)
  }

  lemma AgreeTimers(p: Params, banks: Banks, tables: seq<seq<RankBank>>, now: int)
    requires GridOf(p, banks) && TableGrid(p, tables) && AllAgree(p, banks, tables, now)
    ensures TimersOk(p, banks, now)
  {
    forall r: nat, b: nat | InRange(p, r, b)
      ensures TimerOk(p, banks[r][b], now)
    {
      assert Agree(p, banks[r][b], tables[r][b], now);
    }
  }

  /** From agreement, a ready command leads to agreement one cycle later. */
  lemma IssuedLinked(p: Params, banks: Banks, tables: seq<seq<RankBank>>, c: Packet, now: int)
    requires Sane(p) && GridOf(p, banks) && TableGrid(p, tables) && AllAgree(p, banks, tables, now)
             && ReadyCommand(p, banks, c, now)
    ensures Linked(p, Rows(IssueAll(p, banks, c, now), tables, Some(c)), now + 1)
  {
    hide Agree, IssueBank, ReceiveBank, TickBank, BankReady, Legal, Sane;
    var w := Rows(IssueAll(p, banks, c, now), tables, Some(c));
    var banks', tables' := TickAll(p, w.banks), ReceiveAll(p, tables, Some(c), now + 1);
    forall r: nat, b: nat | InRange(p, r, b) ensures Agree(p, banks'[r][b], tables'[r][b], now + 1) {
      AgreeIssued(p, banks[r][b], tables[r][b], r, b, c, now);
      assert tables'[r][b] == Received(p, tables[r][b], r, b, c, now + 1);
    }
    forall b: nat | b < p.banks && Concerns(c, c.at.rank, b) ensures Legal(tables[c.at.rank][b], c, now + 1) {
      assert InRange(p, c.at.rank, b);
      ReadyIsLegal(p, banks[c.at.rank][b], tables[c.at.rank][b], c, now);
    }
  }

  lemma IdleLinked(p: Params, banks: Banks, tables: seq<seq<RankBank>>, now: int)
    requires Sane(p) && GridOf(p, banks) && TableGrid(p, tables) && AllAgree(p, banks, tables, now)
    ensures Linked(p, Rows(banks, tables, None), now + 1)
  {
    hide Agree, TickBank, Sane;
    var banks' := TickAll(p, banks);
    forall r: nat, b: nat | InRange(p, r, b) ensures Agree(p, banks'[r][b], tables[r][b], now + 1) {
      AgreeTicked(p, banks[r][b], tables[r][b], now);
    }
  }

  lemma IssueTimer(p: Params, s: BankState, rank: nat, bank: nat, c: Packet, now: int)
    requires Sane(p) && TimerOk(p, s, now) && InPolicy(p, c.kind)
             && (Concerns(c, rank, bank) ==> BankReady(p, s, c, now))
    ensures TimerOk(p, IssueBank(p, s, rank, bank, c, now), now)
  {
  }

  lemma IssueTimers(p: Params, banks: Banks, c: Packet, now: int)
    requires Sane(p) && GridOf(p, banks) && TimersOk(p, banks, now) && ReadyCommand(p, banks, c, now)
    ensures TimersOk(p, IssueAll(p, banks, c, now), now)
  {
    hide TimerOk, IssueBank, BankReady, Sane;
    var banks' := IssueAll(p, banks, c, now);
    forall r: nat, b: nat | InRange(p, r, b)
      ensures TimerOk(p, banks'[r][b], now)
    {
      IssueTimer(p, banks[r][b], r, b, c, now);
    }
  }

  /** The invariant behind the safety theorems. */
  ghost predicate Safe(p: Params, w: Rows, st: Sched, now: int) {
    Linked(p, w, now) && SchedOk(p, st, TickAll(p, w.banks))
  }

  lemma SplitOk(p: Params, st: Sched, banks: Banks, waiting: seq<Txn>, d: Data)
    requires Sane(p) && Placed(p) && SchedOk(p, st, banks)
    ensures SchedOk(p, Split(p, st, waiting, d).0, banks)
  {
    hide SchedOk, Sane, RankOk;
    SchedShaped(p, st, banks);
    var i := FirstWithRoom(p, st, waiting, 0);
    if i < |waiting| { EnqueuedOk(p, st, banks, waiting[i].isWrite, waiting[i].addr, waiting[i].id); }
  }

  lemma SchedShaped(p: Params, st: Sched, banks: Banks)
    requires SchedOk(p, st, banks)
    ensures Shaped(p, st) && GridOf(p, banks)
  {
  }

  lemma PreparedOk(p: Params, st: Sched, refresh: Option<nat>, banks: Banks)
    requires SchedOk(p, st, banks) && (refresh.Some? ==> refresh.value < p.ranks)
    ensures SchedOk(p, Prepared(st, refresh), banks)
  {
    hide QueueOk, CountersOk;
    forall r: nat | r < p.ranks ensures RankOk(p, Prepared(st, refresh), banks, r) { assert RankOk(p, st, banks, r); }
  }

  lemma CycleSafe(p: Params, m: Mem, refresh: Option<nat>, pick: Pick)
    requires Sane(p) && Placed(p) && Safe(p, m.rows, m.sched, m.now) && CycleAllowed(p, m, refresh, pick)
    ensures var m' := Cycle(p, m, refresh, pick); Safe(p, m'.rows, m'.sched, m'.now)
  {
    hide Linked, SchedOk, Sane, Eligible, Prior, Picked, Split, Valid, AllAgree, TickAll, IssueAll, ReceiveAll,
      Prepared, Wellformed, TimersOk, Placed, Shaped, GridOf, TableGrid;
    var st, w := Prepared(m.sched, refresh), Settle(p, m.rows, m.now);
    LinkedFacts(p, m.rows, m.now);
    AgreeTimers(p, w.banks, w.tables, m.now);
    PreparedOk(p, m.sched, refresh, w.banks);
    SchedShaped(p, st, w.banks);
    PickOk(p, st, w.banks, pick, m.now);
    var c := Command(p, st, pick);
    var d := IssueData(p, Move(p, m.data, m.rows.bus), c);
    var banks' := if c.Some? then IssueAll(p, w.banks, c.value, m.now) else w.banks;
    if c.Some? {
      IssuedLinked(p, w.banks, w.tables, c.value, m.now);
      IssueTimers(p, w.banks, c.value, m.now);
    } else {
      IdleLinked(p, w.banks, w.tables, m.now);
    }
    TickedOk(p, Picked(p, st, pick), banks', m.now);
    SplitOk(p, Picked(p, st, pick), TickAll(p, banks'), m.waiting, d);
  }

  lemma LinkedFacts(p: Params, w: Rows, now: int)
    requires Linked(p, w, now)
    ensures var s := Settle(p, w, now);
            GridOf(p, s.banks) && TableGrid(p, s.tables) && AllAgree(p, s.banks, s.tables, now)
  {
  }

  /** The command a cycle pops is ready in the settled tables. */
  lemma PoppedReady(p: Params, m: Mem, refresh: Option<nat>, pick: Pick)
    requires Sane(p) && Safe(p, m.rows, m.sched, m.now) && CycleAllowed(p, m, refresh, pick)
    ensures var st, banks := Prepared(m.sched, refresh), TickAll(p, m.rows.banks);
            && Shaped(p, st) && Valid(p, st, pick) && GridOf(p, banks) && TimersOk(p, banks, m.now)
               && SchedOk(p, st, banks)
            && match Command(p, st, pick)
               case None => Picked(p, st, pick) == st
               case Some(c) =>
                 ReadyCommand(p, banks, c, m.now) && GridOf(p, IssueAll(p, banks, c, m.now))
                     && TimersOk(p, IssueAll(p, banks, c, m.now), m.now)
  {
    hide Linked, SchedOk, Sane, Eligible, Prior, Picked, Valid, AllAgree, TickAll, ReceiveAll, Prepared, Wellformed,
      TimersOk, TableGrid;
    var st, w := Prepared(m.sched, refresh), Settle(p, m.rows, m.now);
    LinkedFacts(p, m.rows, m.now);
    AgreeTimers(p, w.banks, w.tables, m.now);
    PreparedOk(p, m.sched, refresh, w.banks);
    SchedShaped(p, st, w.banks);
    PickOk(p, st, w.banks, pick, m.now);
    var c := Command(p, st, pick);
    if c.Some? { IssueTimers(p, w.banks, c.value, m.now); }
  }

  // Starting.

  ghost predicate Fresh(p: Params, m: Mem) {
    && m.now == 0 && m.waiting == [] && m.past == Past([], [])
    && m.rows.bus == None && GridOf(p, m.rows.banks) && TableGrid(p, m.rows.tables)
    && (forall r: nat, b: nat ::
       InRange(p, r, b) ==> m.rows.banks[r][b] == FreshBank && m.rows.tables[r][b] == FreshRankBank)
    && Shaped(p, m.sched) && m.sched.refresh == None
    && (forall r: nat, k: nat :: r < p.ranks && k < QueuesPerRank(p) ==> m.sched.queues[r][k] == [])
    && (forall r: nat, b: nat :: InRange(p, r, b) ==> m.sched.counters[r][b] == 0)
    && (forall r: nat :: r < p.ranks ==> m.sched.faw[r] == [])
    && |m.data.back| == p.ranks && (forall r: nat :: r < p.ranks ==> m.data.back[r] == EmptyPipe)
    && m.data.writes == EmptyPipe && m.data.pending == [] && m.data.returned == []
  }

  lemma FreshSafe(p: Params, m: Mem)
    requires Sane(p) && Fresh(p, m)
    ensures Safe(p, m.rows, m.sched, m.now)
  {
    hide Sane;
    var banks' := TickAll(p, m.rows.banks);
    forall r: nat, b: nat | InRange(p, r, b)
      ensures banks'[r][b] == FreshBank
    {
      assert TickBank(p, FreshBank) == FreshBank;
    }
    forall r: nat | r < p.ranks ensures RankOk(p, m.sched, banks', r) {
      forall b | 0 <= b < p.banks ensures m.sched.counters[r][b] == 0 { assert InRange(p, r, b); }
    }
  }
}
