/**
 A whole memory channel: the controller with its command queue, and the ranks.  One step is one clock
 cycle.  When refreshes are due, and which of the allowed packets is picked, is left open, so every
 refresh schedule and every round-robin order is covered.
 */
module DramRuns {
  import opened Basics
  import opened DramBanks
  import opened DramQueues
  import opened DramScheduling
  import opened DramSchedulerSteps
  import opened DramPipes

  datatype Txn = Txn(isWrite: bool, addr: nat, id: nat)

  datatype Issued = Issued(time: int, cmd: Packet)

  /** The controller's table and command bus, and the tables of the ranks. */
  datatype Rows = Rows(banks: Banks, tables: seq<seq<RankBank>>, bus: Option<Packet>)

  /** Data on its way: read data in each rank, write data in the controller, reads not yet answered. */
  datatype Data = Data(back: seq<Pipe>, writes: Pipe, pending: seq<nat>, returned: seq<nat>)

  /** What has happened: commands popped, transactions accepted. */
  datatype Past = Past(log: seq<Issued>, accepted: seq<Txn>)

  datatype Mem = Mem(now: int, rows: Rows, sched: Sched, data: Data, waiting: seq<Txn>, past: Past)

  // The ranks.

  function ReceiveRow(p: Params, row: seq<RankBank>, c: Packet, now: int): seq<RankBank> {
    seq(|row|, b requires 0 <= b < |row| => ReceiveBank(p, row[b], b, c, now))
  }

  /** The command on the bus reaches its rank. */
  function ReceiveAll(p: Params, tables: seq<seq<RankBank>>, bus: Option<Packet>, now: int): seq<seq<RankBank>> {
    if bus.Some? && bus.value.at.rank < |tables| then
      tables[bus.value.at.rank := ReceiveRow(p, tables[bus.value.at.rank], bus.value, now)]
    else tables
  }

  /** One of the error exits of Rank::receiveFromBus. */
  ghost predicate RankRefuses(p: Params, w: Rows, now: int) {
    w.bus.Some? && var c := w.bus.value;
    c.at.rank < |w.tables| && exists b: nat ::
        b < |w.tables[c.at.rank]| && Concerns(c, c.at.rank, b) && !Legal(w.tables[c.at.rank][b], c, now)
  }

  function TickPipes(pipes: seq<Pipe>, hold: int): seq<Pipe> {
    seq(|pipes|, r requires 0 <= r < |pipes| => Ticked(pipes[r], hold))
  }

  /** The read data the ranks deliver, in rank order. */
  function ReturnedBy(pipes: seq<Pipe>): seq<nat> {
    if pipes == [] then []
    else ReturnedBy(pipes[..|pipes| - 1]) + (var d := Delivered(pipes[|pipes| - 1]);
        if d.Some? then [d.value.addr] else [])
  }

  function ReceiveRead(p: Params, pipes: seq<Pipe>, bus: Option<Packet>): seq<Pipe> {
    if bus.Some? && IsRead(bus.value.kind) && bus.value.at.rank < |pipes| then
      pipes[bus.value.at.rank := Pushed(pipes[bus.value.at.rank], bus.value, RL(p))]
    else pipes
  }

  // The command queue.

  /** The windows of the last four activates: every countdown decreases, and the head may expire. */
  function TickWindow(w: seq<int>): seq<int> {
    var w1 := Decreased(w);
    if |w1| > 0 && w1[0] == 0 then w1[1..] else w1
  }

  function TickWindows(faw: seq<seq<int>>): seq<seq<int>> {
    seq(|faw|, r requires 0 <= r < |faw| => TickWindow(faw[r]))
  }

  /** The scheduler as pop finds it. */
  function Prepared(st: Sched, refresh: Option<nat>): Sched {
    st.(faw := TickWindows(st.faw), refresh := if refresh.Some? then refresh else st.refresh)
  }

  // The transaction queue.

  predicate HasRoom(p: Params, st: Sched, addr: nat)
    requires Shaped(p, st) && InRange(p, p.place(addr).rank, p.place(addr).bank)
  {
    p.queueDepth - |QueueAt(p, st, p.place(addr).rank, p.place(addr).bank)| >= 2
  }

  /** The first waiting transaction, from index i on, whose command queue has room. */
  function FirstWithRoom(p: Params, st: Sched, waiting: seq<Txn>, i: nat): (r: nat)
    requires Shaped(p, st) && i <= |waiting| && (forall j ::
             0 <= j < |waiting| ==> InRange(p, p.place(waiting[j].addr).rank, p.place(waiting[j].addr).bank))
    ensures i <= r <= |waiting|
    ensures r < |waiting| ==> HasRoom(p, st, waiting[r].addr)
    ensures forall j :: i <= j < r ==> !HasRoom(p, st, waiting[j].addr)
    decreases |waiting| - i
  {
    if i == |waiting| || HasRoom(p, st, waiting[i].addr) then i else FirstWithRoom(p, st, waiting, i + 1)
  }

  // A cycle.

  /** No pending read matches the data that is returned: the controller aborts. */
  predicate Unmatched(d: Data) { d.returned != [] && IndexOf(d.pending, d.returned[0]) == |d.pending| }

  function Answered(d: Data): Data {
    if d.returned == [] then d
    else
      var i := IndexOf(d.pending, d.returned[0]);
      d.(returned := d.returned[1..], pending := if i < |d.pending| then Without(d.pending, i) else d.pending)
  }

  ghost predicate Placed(p: Params) {
    forall a: nat :: InRange(p, p.place(a).rank, p.place(a).bank)
  }

  /** The tables when pop is called: countdowns have run, and the last command has reached its rank. */
  function Settle(p: Params, w: Rows, now: int): Rows {
    Rows(TickAll(p, w.banks), ReceiveAll(p, w.tables, w.bus, now), None)
  }

  /** The data when pop is called. */
  function Move(p: Params, d: Data, bus: Option<Packet>): Data {
    d.(back := ReceiveRead(p, TickPipes(d.back, Burst(p)), bus), returned := d.returned + ReturnedBy(d.back),
       writes := Ticked(d.writes, Burst(p)))
  }

  function IssueRows(p: Params, w: Rows, c: Option<Packet>, now: int): Rows {
    if c.Some? then w.(banks := IssueAll(p, w.banks, c.value, now), bus := c) else w
  }

  function IssueData(p: Params, d: Data, c: Option<Packet>): Data {
    if c.Some? && IsWrite(c.value.kind) then d.(writes := Pushed(d.writes, c.value, WL(p))) else d
  }

  function IssuePast(h: Past, c: Option<Packet>, now: int): Past {
    if c.Some? then h.(log := h.log + [Issued(now, c.value)]) else h
  }

  ghost predicate CycleAllowed(p: Params, m: Mem, refresh: Option<nat>, pick: Pick) {
    && (refresh.Some? ==> refresh.value < p.ranks)
    && Shaped(p, m.sched)
    && var st, w := Prepared(m.sched, refresh), Settle(p, m.rows, m.now);
       Wellformed(p, st, w.banks) && Allowed(p, st, w.banks, pick, m.now) && Valid(p, st, pick)
  }

  /** Splitting a transaction into its two commands. */
  ghost function Split(p: Params, st: Sched, waiting: seq<Txn>, d: Data): (Sched, seq<Txn>, Data)
    requires Shaped(p, st) && Placed(p)
  {
    var i := FirstWithRoom(p, st, waiting, 0);
    if i == |waiting| then (st, waiting, d)
    else
      var t := waiting[i];
      (Enqueued(p, st, t.isWrite, t.addr, t.id), Without(waiting, i), if t.isWrite then d
          else d.(pending := d.pending + [t.addr]))
  }

  ghost function Cycle(p: Params, m: Mem, refresh: Option<nat>, pick: Pick): Mem
    requires Placed(p) && CycleAllowed(p, m, refresh, pick)
  {
    var st, w := Prepared(m.sched, refresh), Settle(p, m.rows, m.now);
    var c := Command(p, st, pick);
    var d := IssueData(p, Move(p, m.data, m.rows.bus), c);
    var (st2, waiting, d2) := Split(p, Picked(p, st, pick), m.waiting, d);
    Mem(m.now + 1, IssueRows(p, w, c, m.now), st2, Answered(d2), waiting, IssuePast(m.past, c, m.now))
  }

  ghost function Arrive(m: Mem, isWrite: bool, addr: nat): Mem {
    var t := Txn(isWrite, addr, |m.past.accepted|);
    m.(waiting := m.waiting + [t], past := m.past.(accepted := m.past.accepted + [t]))
  }
}
