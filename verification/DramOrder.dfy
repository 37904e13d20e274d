/** Requests to one row of one bank issue their column commands in the order in which they arrived. */
module DramOrder {
  import opened Basics
  import opened DramBanks
  import opened DramQueues
  import opened DramScheduling
  import opened DramSchedulerSteps
  import opened DramRuns
  import opened DramSafety

  /** The transactions whose column commands to a row stand in a queue, in order. */
  function Columns(q: Queue, at: Place): seq<nat> {
    if q == [] then []
    else
      var c := q[|q| - 1];
      Columns(q[..|q| - 1], at) + if IsColumn(c.kind) && c.at == at then [c.txn] else []
  }

  function IssuedColumns(log: seq<Issued>, at: Place): seq<nat> {
    if log == [] then []
    else
      var c := log[|log| - 1].cmd;
      IssuedColumns(log[..|log| - 1], at) + if IsColumn(c.kind) && c.at == at then [c.txn] else []
  }

  function TxnsAt(p: Params, ts: seq<Txn>, at: Place): seq<nat> {
    if ts == [] then []
    else
      var t := ts[|ts| - 1];
      TxnsAt(p, ts[..|ts| - 1], at) + if p.place(t.addr) == at then [t.id] else []
  }

  /** Issued, queued and waiting together are the accepted transactions of the row, in order. */
  ghost predicate InOrder(p: Params, st: Sched, waiting: seq<Txn>, h: Past, at: Place)
    requires Shaped(p, st) && InRange(p, at.rank, at.bank)
  {
    IssuedColumns(h.log, at) + Columns(QueueAt(p, st, at.rank, at.bank), at)
        + TxnsAt(p, waiting, at) == TxnsAt(p, h.accepted, at)
  }

  ghost predicate OrderOk(p: Params, st: Sched, waiting: seq<Txn>, h: Past) {
    Shaped(p, st) && forall at: Place :: InRange(p, at.rank, at.bank) ==> InOrder(p, st, waiting, h, at)
  }

  // Sequences.

  lemma {:induction false} ColumnsConcat(u: Queue, v: Queue, at: Place)
    ensures Columns(u + v, at) == Columns(u, at) + Columns(v, at)
  {
    if v == [] {
      assert u + v == u;
    } else {
      var n := |v| - 1;
      ColumnsConcat(u, v[..n], at);
      assert (u + v)[..|u + v| - 1] == u + v[..n];
    }
  }

  lemma {:induction false} NoColumns(q: Queue, at: Place)
    requires forall i :: 0 <= i < |q| && IsColumn(q[i].kind) ==> q[i].at != at
    ensures Columns(q, at) == []
  {
    if q != [] { NoColumns(q[..|q| - 1], at); }
  }

  lemma OneColumn(c: Packet, at: Place)
    ensures Columns([c], at) == if IsColumn(c.kind) && c.at == at then [c.txn] else []
  {
    assert [c][..0] == [];
  }

  lemma {:induction false} TxnsConcat(p: Params, u: seq<Txn>, v: seq<Txn>, at: Place)
    ensures TxnsAt(p, u + v, at) == TxnsAt(p, u, at) + TxnsAt(p, v, at)
  {
    if v == [] {
      assert u + v == u;
    } else {
      var n := |v| - 1;
      TxnsConcat(p, u, v[..n], at);
      assert (u + v)[..|u + v| - 1] == u + v[..n];
    }
  }

  lemma {:induction false} NoTxns(p: Params, ts: seq<Txn>, at: Place)
    requires forall i :: 0 <= i < |ts| ==> p.place(ts[i].addr) != at
    ensures TxnsAt(p, ts, at) == []
  {
    if ts != [] { NoTxns(p, ts[..|ts| - 1], at); }
  }

  lemma OneTxn(p: Params, t: Txn, at: Place)
    ensures TxnsAt(p, [t], at) == if p.place(t.addr) == at then [t.id] else []
  {
    assert [t][..0] == [];
  }

  // Picks.

  lemma MiddleColumns(u: Queue, c: Packet, v: Queue, at: Place)
    requires IsColumn(c.kind) && c.at == at ==> Columns(u, at) == []
    ensures Columns(u + ([c] + v), at) == (if IsColumn(c.kind) && c.at == at then [c.txn] else []) + Columns(u + v, at)
  {
    hide Columns;
    ColumnsConcat(u, v, at);
    ColumnsConcat(u, [c] + v, at);
    ColumnsConcat([c], v, at);
    OneColumn(c, at);
  }

  /** Removing a packet takes the first column of its row, and of no other row. */
  lemma RemovedColumns(q: Queue, i: nat, absorb: bool, at: Place)
    requires Removable(q, i, absorb) && (!absorb && IsColumn(q[i].kind) ==> FirstOfBank(q, i))
    ensures Columns(q, at) == (if IsColumn(q[i].kind) && q[i].at == at then [q[i].txn] else [])
            + Columns(Removed(q, i, absorb), at)
  {
    hide Columns;
    var k := if absorb then i - 1 else i;
    var u, v := q[..k], q[i + 1..];
    if IsColumn(q[i].kind) && q[i].at == at { NoColumns(u, at); }
    MiddleColumns(u, q[i], v, at);
    assert Removed(q, i, absorb) == u + v;
    if absorb {
      MiddleColumns(u, q[k], [q[i]] + v, at);
      assert q == u + ([q[k]] + ([q[i]] + v));
    } else {
      assert q == u + ([q[i]] + v);
    }
  }

  lemma Shift(a: seq<nat>, x: seq<nat>, y: seq<nat>, t: seq<nat>)
    ensures (a + x) + y + t == a + (x + y) + t
  {
  }

  /** A pick moves at most one transaction from the queue to the log, and keeps the order. */
  lemma PickedOrder(p: Params, st: Sched, banks: Banks, pick: Pick, waiting: seq<Txn>, h: Past, now: int, at: Place)
    requires Sane(p) && SchedOk(p, st, banks) && Wellformed(p, st, banks) && TimersOk(p, banks, now)
    requires Eligible(p, st, banks, pick, now) && Valid(p, st, pick) && InRange(p, at.rank, at.bank)
             && InOrder(p, st, waiting, h, at)
    ensures InOrder(p, Picked(p, st, pick), waiting, IssuePast(h, Command(p, st, pick), now), at)
  {
    hide SchedOk, Sane, TimersOk, Eligible, Prior, IssueAll, BankReady, Removable, Columns, TxnsAt, IssuedColumns,
      Picked;
    var c := Command(p, st, pick);
    if c.Some? { IssuedSnoc(h.log, Issued(now, c.value), at); }
    if pick.Take? {
      TakeOk(p, st, banks, pick.rank, pick.bank, pick.i, pick.absorb, now);
      TakenOrder(p, st, banks, pick.rank, pick.bank, pick.i, pick.absorb, at);
      var x := if IsColumn(c.value.kind) && c.value.at == at then [c.value.txn] else [];
      Shift(IssuedColumns(h.log, at), x, Columns(QueueAt(p, Picked(p, st, pick), at.rank, at.bank), at),
          TxnsAt(p, waiting, at));
    } else {
      NotColumn(p, st, pick);
    }
  }

  lemma IssuedSnoc(log: seq<Issued>, e: Issued, at: Place)
    ensures IssuedColumns(log + [e], at) == IssuedColumns(log, at) + if IsColumn(e.cmd.kind) && e.cmd.at == at
            then [e.cmd.txn] else []
  {
    assert (log + [e])[..|log|] == log;
  }

  lemma NotColumn(p: Params, st: Sched, pick: Pick)
    requires Shaped(p, st) && Valid(p, st, pick) && !pick.Take?
    ensures Command(p, st, pick).Some? ==> !IsColumn(Command(p, st, pick).value.kind)
    ensures Picked(p, st, pick).queues == st.queues
  {
  }

  lemma TakenOrder(p: Params, st: Sched, banks: Banks, rank: nat, bank: nat, i: nat, absorb: bool, at: Place)
    requires SchedOk(p, st, banks) && Wellformed(p, st, banks) && InRange(p, rank, bank) && InRange(p, at.rank, at.bank)
    requires Removable(QueueAt(p, st, rank, bank), i, absorb) && Valid(p, st, Take(rank, bank, i, absorb))
    ensures var c, st' := QueueAt(p, st, rank, bank)[i], Picked(p, st, Take(rank, bank, i, absorb));
            Columns(QueueAt(p, st, at.rank, at.bank), at)
            == (if IsColumn(c.kind) && c.at == at then [c.txn] else []) + Columns(QueueAt(p, st', at.rank, at.bank), at)
  {
    hide SchedOk, Columns, Removable;
    var q := QueueAt(p, st, rank, bank);
    QueueIsOk(p, st, banks, rank, bank);
    HomedHere(p, q, i, rank, QueueIndex(p, bank));
    LooseFirst(q, i, absorb, banks[rank], st.counters[rank]);
    if at.rank == rank && QueueIndex(p, at.bank) == QueueIndex(p, bank) {
      RemovedColumns(q, i, absorb, at);
    }
  }

  lemma LooseFirst(q: Queue, i: nat, absorb: bool, row: seq<BankState>, n: seq<nat>)
    requires Removable(q, i, absorb) && NotStranded(q, row, n)
    ensures !absorb && IsColumn(q[i].kind) ==> FirstOfBank(q, i)
  {
  }

  // The transaction queue.

  lemma SplitOrder(p: Params, st: Sched, waiting: seq<Txn>, d: Data, h: Past, at: Place)
    requires Shaped(p, st) && Placed(p) && InRange(p, at.rank, at.bank) && InOrder(p, st, waiting, h, at)
    ensures var (st', waiting', d') := Split(p, st, waiting, d); InOrder(p, st', waiting', h, at)
  {
    hide Columns, TxnsAt, IssuedColumns;
    var i := FirstWithRoom(p, st, waiting, 0);
    if i < |waiting| {
      var t := waiting[i];
      var mine := p.place(t.addr) == at;
      WithoutTxns(p, waiting, i, at);
      EnqueuedColumns(p, st, t, at);
    }
  }

  lemma WithoutTxns(p: Params, ts: seq<Txn>, i: nat, at: Place)
    requires i < |ts| && (p.place(ts[i].addr) == at ==> forall j :: 0 <= j < i ==> p.place(ts[j].addr) != at)
    ensures TxnsAt(p, ts, at) == (if p.place(ts[i].addr) == at then [ts[i].id] else []) + TxnsAt(p, Without(ts, i), at)
  {
    hide TxnsAt;
    var u, v := ts[..i], ts[i + 1..];
    assert ts == u + ([ts[i]] + v);
    TxnsConcat(p, u, [ts[i]] + v, at);
    TxnsConcat(p, [ts[i]], v, at);
    TxnsConcat(p, u, v, at);
    OneTxn(p, ts[i], at);
    if p.place(ts[i].addr) == at { NoTxns(p, u, at); }
  }

  lemma EnqueuedColumns(p: Params, st: Sched, t: Txn, at: Place)
    requires Shaped(p, st) && Placed(p) && InRange(p, at.rank, at.bank)
    ensures Columns(QueueAt(p, Enqueued(p, st, t.isWrite, t.addr, t.id), at.rank, at.bank), at)
            == Columns(QueueAt(p, st, at.rank, at.bank), at) + if p.place(t.addr) == at then [t.id] else []
  {
    hide Columns;
    var cs := CommandsOf(p, t.isWrite, t.addr, t.id);
    var q := QueueAt(p, st, at.rank, at.bank);
    assert cs == [cs[0]] + [cs[1]];
    ColumnsConcat(q, cs, at);
    ColumnsConcat([cs[0]], [cs[1]], at);
    OneColumn(cs[0], at);
    OneColumn(cs[1], at);
    if p.place(t.addr).rank == at.rank && QueueIndex(p, p.place(t.addr).bank) == QueueIndex(p, at.bank) {
      assert QueueAt(p, Enqueued(p, st, t.isWrite, t.addr, t.id), at.rank, at.bank) == q + cs;
    }
  }

  lemma CycleOrder(p: Params, m: Mem, refresh: Option<nat>, pick: Pick)
    requires Sane(p) && Placed(p) && Safe(p, m.rows, m.sched, m.now) && CycleAllowed(p, m, refresh, pick)
    requires OrderOk(p, m.sched, m.waiting, m.past)
    ensures var m' := Cycle(p, m, refresh, pick); OrderOk(p, m'.sched, m'.waiting, m'.past)
  {
    hide Safe, SchedOk, Picked, ReceiveAll, TimersOk, Placed, TickAll, IssueAll, Command, Eligible, Prior, Wellformed,
      ReadyCommand, Columns, TxnsAt, IssuedColumns, Split, Sane, InOrder;
    PoppedReady(p, m, refresh, pick);
    var st, banks := Prepared(m.sched, refresh), TickAll(p, m.rows.banks);
    var c, m' := Command(p, st, pick), Cycle(p, m, refresh, pick);
    var d := IssueData(p, Move(p, m.data, m.rows.bus), c);
    SplitShaped(p, Picked(p, st, pick), m.waiting, d);
    forall at: Place | InRange(p, at.rank, at.bank) ensures InOrder(p, m'.sched, m'.waiting, m'.past, at) {
      PreparedOrder(p, m.sched, refresh, m.waiting, m.past, at);
      PickedOrder(p, st, banks, pick, m.waiting, m.past, m.now, at);
      SplitOrder(p, Picked(p, st, pick), m.waiting, d, m'.past, at);
    }
  }

  lemma PreparedOrder(p: Params, st: Sched, refresh: Option<nat>, waiting: seq<Txn>, h: Past, at: Place)
    requires Shaped(p, st) && Shaped(p, Prepared(st, refresh)) && InRange(p, at.rank, at.bank)
             && InOrder(p, st, waiting, h, at)
    ensures InOrder(p, Prepared(st, refresh), waiting, h, at)
  {
  }

  lemma SplitShaped(p: Params, st: Sched, waiting: seq<Txn>, d: Data)
    requires Shaped(p, st) && Placed(p)
    ensures Shaped(p, Split(p, st, waiting, d).0)
  {
  }

  lemma ArriveOrder(p: Params, m: Mem, isWrite: bool, addr: nat)
    requires OrderOk(p, m.sched, m.waiting, m.past)
    ensures var m' := Arrive(m, isWrite, addr); OrderOk(p, m'.sched, m'.waiting, m'.past)
  {
    hide Columns, TxnsAt, IssuedColumns;
    var m' := Arrive(m, isWrite, addr);
    var t := Txn(isWrite, addr, |m.past.accepted|);
    forall at: Place | InRange(p, at.rank, at.bank) ensures InOrder(p, m'.sched, m'.waiting, m'.past, at) {
      TxnsConcat(p, m.waiting, [t], at);
      TxnsConcat(p, m.past.accepted, [t], at);
      assert InOrder(p, m.sched, m.waiting, m.past, at);
    }
  }
}
