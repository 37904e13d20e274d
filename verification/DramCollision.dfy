/**
 When data can collide.  If a row of another rank can be opened and used before the data of a column command
 has left the bus, a run of the controller leads to a collision: two writes, or two reads, suffice.
 */
module DramCollision {
  import opened Basics
  import opened DramBanks
  import opened DramQueues
  import opened DramScheduling
  import opened DramSchedulerSteps
  import opened DramPipes
  import opened DramRuns
  import opened DramSafety
  import opened DramData
  import opened DramCrossRank
  import opened DramTheorems

  // The write bus.

  function Ticks(d: Pipe, hold: int, n: nat): Pipe
    decreases n
  {
    if n == 0 then d else Ticks(Ticked(d, hold), hold, n - 1)
  }

  lemma {:induction false} TicksNext(d: Pipe, hold: int, n: nat)
    ensures Ticks(d, hold, n + 1) == Ticked(Ticks(d, hold, n), hold)
    decreases n
  {
    if n > 0 { TicksNext(Ticked(d, hold), hold, n - 1); }
  }

  /** A packet k cycles after it was pushed on an empty pipe. */
  function Solo(c: Packet, delay: int, hold: int, k: int): Pipe {
    if k < delay then Pipe([c], [delay - k], None, 0) else Pipe([], [], Some(c), hold - (k - delay))
  }

  lemma {:induction false} SoloTicks(c: Packet, delay: int, hold: int, n: nat)
    requires delay >= 1 && n < delay + hold
    ensures Ticks(Solo(c, delay, hold, 0), hold, n) == Solo(c, delay, hold, n)
  {
    if n > 0 {
      SoloTicks(c, delay, hold, n - 1);
      TicksNext(Solo(c, delay, hold, 0), hold, n - 1);
    }
  }

  /** A second packet, pushed `gap` cycles after the first, k cycles later. */
  function Duo(c: Packet, d: Packet, delay: int, hold: int, gap: int, k: int): Pipe {
    var first := Solo(c, delay, hold, gap + k);
    first.(packets := first.packets + [d], counts := first.counts + [delay - k])
  }

  lemma DuoTick(c: Packet, d: Packet, delay: int, hold: int, gap: int, k: nat)
    requires delay >= 1 && 1 <= gap < hold && k + 1 < delay
    ensures Ticked(Duo(c, d, delay, hold, gap, k), hold) == Duo(c, d, delay, hold, gap, k + 1)
  {
    var pipe := Duo(c, d, delay, hold, gap, k);
    if gap + k < delay {
      assert pipe == Pipe([c, d], [delay - gap - k, delay - k], None, 0);
      assert Decreased(pipe.counts) == [delay - gap - k - 1, delay - k - 1];
    } else {
      assert pipe == Pipe([d], [delay - k], Some(c), hold - (gap + k - delay));
      assert Decreased(pipe.counts) == [delay - k - 1];
    }
  }

  lemma {:induction false} DuoTicks(c: Packet, d: Packet, delay: int, hold: int, gap: int, n: nat)
    requires delay >= 1 && 1 <= gap < hold && n < delay
    ensures Ticks(Duo(c, d, delay, hold, gap, 0), hold, n) == Duo(c, d, delay, hold, gap, n)
  {
    hide Ticked, Duo, Ticks;
    if n == 0 {
      NoTicks(Duo(c, d, delay, hold, gap, 0), hold);
    } else {
      DuoTicks(c, d, delay, hold, gap, n - 1);
      TicksNext(Duo(c, d, delay, hold, gap, 0), hold, n - 1);
      DuoTick(c, d, delay, hold, gap, n - 1);
    }
  }

  lemma NoTicks(d: Pipe, hold: int)
    ensures Ticks(d, hold, 0) == d
  {
  }

  /** The second packet is due while the first is still on the bus. */
  lemma DuoCollides(c: Packet, d: Packet, delay: int, hold: int, gap: int)
    requires delay >= 1 && 1 <= gap < hold
    ensures Collides(Duo(c, d, delay, hold, gap, delay - 1))
  {
  }

  // Two places of two ranks, and nothing else in the queues.

  ghost predicate TwoRanks(p: Params, x: Place, y: Place) {
    InRange(p, x.rank, x.bank) && InRange(p, y.rank, y.bank) && x.rank != y.rank
  }

  predicate Home(p: Params, at: Place, rank: nat, bank: nat)
  {
    rank == at.rank && QueueIndex(p, bank) == QueueIndex(p, at.bank)
  }

  ghost predicate Layout(p: Params, st: Sched, x: Place, y: Place, qx: Queue, qy: Queue)
    requires Shaped(p, st)
  {
    forall r: nat, b: nat :: InRange(p, r, b) ==>
      QueueAt(p, st, r, b) == if Home(p, x, r, b) then qx else if Home(p, y, r, b) then qy else []
  }

  function Activates(q: Queue): nat { if q != [] && q[0].kind == Activate then 1 else 0 }

  ghost predicate Windows(st: Sched, x: Place, qx: Queue) {
    x.rank < |st.faw| && |st.faw[x.rank]| + Activates(qx) <= 1
  }

  ghost predicate Unused(p: Params, st: Sched)
    requires Shaped(p, st)
  {
    forall r: nat, b: nat :: InRange(p, r, b) ==> st.counters[r][b] == 0
  }

  ghost predicate Quiet(p: Params, banks: Banks, x: Place, y: Place)
    requires GridOf(p, banks)
  {
    forall r: nat, b: nat :: InRange(p, r, b) && !(r == x.rank && b == x.bank) && !(r == y.rank && b == y.bank) ==>
      banks[r][b].state == Idle && banks[r][b].countdown == 0
  }

  ghost predicate Queued(p: Params, at: Place, q: Queue) { forall i :: 0 <= i < |q| ==> q[i].at == at }

  ghost predicate Scheme(p: Params, st: Sched, x: Place, y: Place, qx: Queue, qy: Queue) {
    && Shaped(p, st) && st.refresh == None && Layout(p, st, x, y, qx, qy) && Unused(p, st)
    && Windows(st, x, qx) && Windows(st, y, qy)
  }

  ghost predicate Scene(p: Params, m: Mem, x: Place, y: Place, qx: Queue, qy: Queue) {
    && TwoRanks(p, x, y) && Queued(p, x, qx) && Queued(p, y, qy) && Scheme(p, m.sched, x, y, qx, qy)
    && GridOf(p, TickAll(p, m.rows.banks)) && Quiet(p, TickAll(p, m.rows.banks), x, y)
  }

  function BankAt(p: Params, m: Mem, x: Place): BankState
    requires GridOf(p, TickAll(p, m.rows.banks)) && InRange(p, x.rank, x.bank)
  {
    TickAll(p, m.rows.banks)[x.rank][x.bank]
  }

  /** The two may be exchanged. */
  lemma Exchanged(p: Params, m: Mem, x: Place, y: Place, qx: Queue, qy: Queue)
    requires Scene(p, m, x, y, qx, qy)
    ensures Scene(p, m, y, x, qy, qx)
  {
  }

  /** At most one transaction waits, for the empty queue of y. */
  ghost predicate Incoming(p: Params, m: Mem, y: Place, qy: Queue) {
    m.waiting == [] ||
    (|m.waiting| == 1 && p.place(m.waiting[0].addr) == y && qy == [] && p.queueDepth >= 2
     && NoWindow(m, y))
  }

  ghost predicate NoWindow(m: Mem, y: Place) { y.rank < |m.sched.faw| && m.sched.faw[y.rank] == [] }

  function Commands(p: Params, waiting: seq<Txn>): Queue {
    if waiting == [] then [] else CommandsOf(p, waiting[0].isWrite, waiting[0].addr, waiting[0].id)
  }

  // The scheduler.

  lemma TickedScheme(p: Params, st: Sched, x: Place, y: Place, qx: Queue, qy: Queue)
    requires Scheme(p, st, x, y, qx, qy)
    ensures Scheme(p, Prepared(st, None), x, y, qx, qy)
    ensures |st.faw[x.rank]| == 0 ==> |Prepared(st, None).faw[x.rank]| == 0
    ensures |st.faw[y.rank]| == 0 ==> |Prepared(st, None).faw[y.rank]| == 0
  {
    var st' := Prepared(st, None);
    forall r: nat, b: nat | InRange(p, r, b) ensures QueueAt(p, st', r, b) == QueueAt(p, st, r, b) {}
  }

  lemma SchemeWellformed(p: Params, st: Sched, banks: Banks, x: Place, y: Place, qx: Queue, qy: Queue)
    requires Scheme(p, st, x, y, qx, qy) && TwoRanks(p, x, y) && Queued(p, x, qx) && Queued(p, y, qy)
             && GridOf(p, banks)
    ensures Wellformed(p, st, banks)
  {
    forall r, b | InRange(p, r, b) ensures QueueInRange(p, QueueAt(p, st, r, b)) {}
  }

  /** Taking the head of the queue of x. */
  lemma TakenScheme(p: Params, st: Sched, x: Place, y: Place, qx: Queue, qy: Queue)
    requires Scheme(p, st, x, y, qx, qy) && TwoRanks(p, x, y) && Queued(p, x, qx) && qx != []
    requires |qx| > 1 ==> qx[1].kind != Activate
    ensures var pick := Take(x.rank, x.bank, 0, false);
            && Valid(p, st, pick) && Command(p, st, pick) == Some(qx[0])
            && Scheme(p, Picked(p, st, pick), x, y, qx[1..], qy) && Picked(p, st, pick).faw[y.rank] == st.faw[y.rank]
  {
    hide Layout, Removed;
    assert QueueAt(p, st, x.rank, x.bank) == qx by { LayoutAt(p, st, x, y, qx, qy); }
    assert Removed(qx, 0, false) == qx[1..];
    var st1 := WithQueue(p, st, x.rank, x.bank, qx[1..]);
    Relaid(p, st, x, y, qx, qy, qx[1..]);
    LayoutQueues(p, st1, Opened(p, st1, qx[0]), x, y, qx[1..], qy);
  }

  lemma LayoutAt(p: Params, st: Sched, x: Place, y: Place, qx: Queue, qy: Queue)
    requires Shaped(p, st) && Layout(p, st, x, y, qx, qy) && TwoRanks(p, x, y)
    ensures QueueAt(p, st, x.rank, x.bank) == qx && QueueAt(p, st, y.rank, y.bank) == qy
  {
  }

  lemma LayoutQueues(p: Params, st: Sched, st': Sched, x: Place, y: Place, qx: Queue, qy: Queue)
    requires Shaped(p, st) && Shaped(p, st') && st'.queues == st.queues && Layout(p, st, x, y, qx, qy)
    ensures Layout(p, st', x, y, qx, qy)
  {
    forall r: nat, b: nat | InRange(p, r, b) ensures QueueAt(p, st', r, b) == QueueAt(p, st, r, b) {}
  }

  lemma Relaid(p: Params, st: Sched, x: Place, y: Place, qx: Queue, qy: Queue, q: Queue)
    requires Shaped(p, st) && Layout(p, st, x, y, qx, qy) && TwoRanks(p, x, y)
    ensures Shaped(p, WithQueue(p, st, x.rank, x.bank, q))
            && Layout(p, WithQueue(p, st, x.rank, x.bank, q), x, y, q, qy)
  {
    var st' := WithQueue(p, st, x.rank, x.bank, q);
    forall r: nat, b: nat | InRange(p, r, b)
      ensures QueueAt(p, st', r, b) == if Home(p, x, r, b) then q else if Home(p, y, r, b) then qy else []
    {
      assert QueueAt(p, st, r, b) == if Home(p, x, r, b) then qx else if Home(p, y, r, b) then qy else [];
    }
  }

  /** The transaction that waits, if any, joins the queue of y. */
  lemma SplitScheme(p: Params, st: Sched, x: Place, y: Place, qx: Queue, qy: Queue, waiting: seq<Txn>, d: Data)
    requires Placed(p) && Scheme(p, st, x, y, qx, qy) && TwoRanks(p, x, y)
    requires waiting == [] ||
             (|waiting| == 1 && p.place(waiting[0].addr) == y && qy == [] && p.queueDepth >= 2
                 && st.faw[y.rank] == [])
    ensures var (st', waiting', d') := Split(p, st, waiting, d);
            Scheme(p, st', x, y, qx, qy + Commands(p, waiting)) && waiting' == [] && d'.writes == d.writes
                && st'.faw == st.faw
  {
    hide Layout, QueueAt, HasRoom, Shaped;
    SchemeShaped(p, st, x, y, qx, qy);
    if waiting == [] {
      assert qy + [] == qy;
    } else {
      var t := waiting[0];
      LayoutAt(p, st, x, y, qx, qy);
      RoomFor(p, st, t.addr);
      assert Without(waiting, 0) == [];
      LayoutSwapped(p, st, x, y, qx, qy);
      Relaid(p, st, y, x, qy, qx, qy + Commands(p, waiting));
      LayoutSwapped(p, WithQueue(p, st, y.rank, y.bank, qy + Commands(p, waiting)), y, x, qy + Commands(p, waiting),
          qx);
    }
  }

  lemma SchemeShaped(p: Params, st: Sched, x: Place, y: Place, qx: Queue, qy: Queue)
    requires Scheme(p, st, x, y, qx, qy)
    ensures Shaped(p, st)
  {
  }

  lemma RoomFor(p: Params, st: Sched, addr: nat)
    requires Shaped(p, st) && InRange(p, p.place(addr).rank, p.place(addr).bank) && p.queueDepth >= 2
    requires QueueAt(p, st, p.place(addr).rank, p.place(addr).bank) == []
    ensures HasRoom(p, st, addr)
  {
  }

  lemma LayoutSwapped(p: Params, st: Sched, x: Place, y: Place, qx: Queue, qy: Queue)
    requires Shaped(p, st) && Layout(p, st, x, y, qx, qy) && TwoRanks(p, x, y)
    ensures Layout(p, st, y, x, qy, qx)
  {
  }

  // Cycles.

  /** Until that time nothing of the queue can go, and the bank is not closed. */
  ghost predicate Stalls(p: Params, s: BankState, q: Queue, until: int) {
    if q == [] then p.openPage && s.state == RowActive ==> s.nextPrecharge >= until
    else
      && |q| == 1 && IsColumn(q[0].kind) && s.state == RowActive && s.countdown == 0 && s.row == q[0].at.row
      && (if IsWrite(q[0].kind) then s.nextWrite else s.nextRead) >= until
  }

  lemma TickStalls(p: Params, s: BankState, q: Queue, until: int)
    requires Stalls(p, s, q, until)
    ensures Stalls(p, TickBank(p, s), q, until) && (s.countdown == 0 ==> TickBank(p, s) == s)
  {
  }

  lemma StalledNothing(p: Params, st: Sched, banks: Banks, x: Place, y: Place, qx: Queue, qy: Queue, now: int)
    requires Sane(p) && Scheme(p, st, x, y, qx, qy) && TwoRanks(p, x, y) && Queued(p, x, qx) && Queued(p, y, qy)
    requires GridOf(p, banks) && Quiet(p, banks, x, y)
    requires Stalls(p, banks[x.rank][x.bank], qx, now + 1) && Stalls(p, banks[y.rank][y.bank], qy, now + 1)
    ensures Wellformed(p, st, banks) && NothingToDo(p, st, banks, now)
  {
    hide Sane;
    assert p.rowAccesses >= 1 by { SaneFacts(p); }
    SchemeWellformed(p, st, banks, x, y, qx, qy);
    forall r: nat, b: nat | InRange(p, r, b)
      ensures forall i: nat :: !Candidate(p, st, banks, r, b, i, now)
      ensures p.openPage && banks[r][b].state == RowActive && now >= banks[r][b].nextPrecharge ==>
                var q := QueueAt(p, st, r, b);
                    FirstForRow(q, b, banks[r][b].row, 0) < |q| && st.counters[r][b] != p.rowAccesses
    {
      assert QueueAt(p, st, r, b) == if Home(p, x, r, b) then qx else if Home(p, y, r, b) then qy else [];
    }
  }

  lemma SaneFacts(p: Params)
    requires Sane(p)
    ensures p.rowAccesses >= 1 && Placed(p) && WL(p) >= 1 && p.AL <= p.tRCD && Burst(p) >= 1
  {
  }

  lemma QuietTicked(p: Params, banks: Banks, x: Place, y: Place)
    requires GridOf(p, banks) && Quiet(p, banks, x, y) && TwoRanks(p, x, y)
    ensures GridOf(p, TickAll(p, banks)) && Quiet(p, TickAll(p, banks), x, y)
    ensures TickAll(p, banks)[x.rank][x.bank] == TickBank(p, banks[x.rank][x.bank])
    ensures TickAll(p, banks)[y.rank][y.bank] == TickBank(p, banks[y.rank][y.bank])
  {
  }

  lemma QuietIssued(p: Params, banks: Banks, x: Place, y: Place, c: Packet, now: int)
    requires GridOf(p, banks) && Quiet(p, banks, x, y) && TwoRanks(p, x, y) && c.at == x
             && (c.kind == Activate || IsColumn(c.kind))
    ensures GridOf(p, IssueAll(p, banks, c, now)) && Quiet(p, IssueAll(p, banks, c, now), x, y)
    ensures IssueAll(p, banks, c, now)[x.rank][x.bank] == IssueBank(p, banks[x.rank][x.bank], x.rank, x.bank, c, now)
    ensures IssueAll(p, banks, c, now)[y.rank][y.bank] == IssueBank(p, banks[y.rank][y.bank], y.rank, y.bank, c, now)
  {
  }

  /** A cycle in which nothing is popped. */
  lemma WaitStep(p: Params, m: Mem, x: Place, y: Place, qx: Queue, qy: Queue)
    requires Sane(p) && Placed(p) && Scene(p, m, x, y, qx, qy) && Incoming(p, m, y, qy)
    requires Stalls(p, BankAt(p, m, x), qx, m.now + 1) && Stalls(p, BankAt(p, m, y), qy, m.now + 1)
    ensures CycleAllowed(p, m, None, Nothing)
    ensures var m' := Cycle(p, m, None, Nothing);
            && Scene(p, m', x, y, qx, qy + Commands(p, m.waiting))
            && BankAt(p, m', x) == TickBank(p, BankAt(p, m, x)) && BankAt(p, m', y) == TickBank(p, BankAt(p, m, y))
            && m'.waiting == [] && m'.now == m.now + 1 && m'.data.writes == Ticked(m.data.writes, Burst(p))
            && m'.past.log == m.past.log
            && (NoWindow(m, x) ==> NoWindow(m', x)) && (NoWindow(m, y) ==> NoWindow(m', y))
  {
    hide Sane, Placed, Scheme, Quiet, Stalls, TickBank, TickAll, Ticked, Wellformed, NothingToDo, GridOf, Split,
      Prepared, Queued, ReceiveAll, TickPipes, ReturnedBy, ReceiveRead;
    var banks := TickAll(p, m.rows.banks);
    TickedScheme(p, m.sched, x, y, qx, qy);
    var st := Prepared(m.sched, None);
    StalledNothing(p, st, banks, x, y, qx, qy, m.now);
    SchemeFacts(p, m.sched, x, y, qx, qy);
    SchemeFacts(p, st, x, y, qx, qy);
    SplitScheme(p, st, x, y, qx, qy, m.waiting, Move(p, m.data, m.rows.bus));
    QuietTicked(p, banks, x, y);
    QueuedMore(p, m, y, qy);
  }

  lemma SchemeFacts(p: Params, st: Sched, x: Place, y: Place, qx: Queue, qy: Queue)
    requires Scheme(p, st, x, y, qx, qy)
    ensures Shaped(p, st) && st.refresh == None && x.rank < |st.faw| && y.rank < |st.faw|
  {
  }

  lemma QueuedMore(p: Params, m: Mem, y: Place, qy: Queue)
    requires Queued(p, y, qy) && Incoming(p, m, y, qy)
    ensures Queued(p, y, qy + Commands(p, m.waiting))
  {
  }

  lemma TakeAllowed(p: Params, st: Sched, banks: Banks, x: Place, y: Place, qx: Queue, qy: Queue, now: int)
    requires Sane(p) && Scheme(p, st, x, y, qx, qy) && TwoRanks(p, x, y) && Queued(p, x, qx) && Queued(p, y, qy)
    requires GridOf(p, banks) && qx != [] && qx[0].kind != Refresh && BankReady(p, banks[x.rank][x.bank], qx[0], now)
    ensures Wellformed(p, st, banks) && Allowed(p, st, banks, Take(x.rank, x.bank, 0, false), now)
  {
    hide Sane, BankReady;
    assert p.rowAccesses >= 1 by { SaneFacts(p); }
    SchemeWellformed(p, st, banks, x, y, qx, qy);
    LayoutAt(p, st, x, y, qx, qy);
  }

  /** A cycle that pops the head of the queue of x. */
  lemma TakeStep(p: Params, m: Mem, x: Place, y: Place, qx: Queue, qy: Queue)
    requires Sane(p) && Placed(p) && Scene(p, m, x, y, qx, qy) && Incoming(p, m, y, qy)
    requires qx != [] && (qx[0].kind == Activate || IsColumn(qx[0].kind)) && (|qx| > 1 ==> qx[1].kind != Activate)
    requires BankReady(p, BankAt(p, m, x), qx[0], m.now)
    ensures CycleAllowed(p, m, None, Take(x.rank, x.bank, 0, false))
    ensures var m' := Cycle(p, m, None, Take(x.rank, x.bank, 0, false));
            var w := Ticked(m.data.writes, Burst(p));
            && Scene(p, m', x, y, qx[1..], qy + Commands(p, m.waiting))
            && BankAt(p, m', x) == TickBank(p, IssueBank(p, BankAt(p, m, x), x.rank, x.bank, qx[0], m.now))
            && BankAt(p, m', y) == TickBank(p, IssueBank(p, BankAt(p, m, y), y.rank, y.bank, qx[0], m.now))
            && m'.waiting == [] && m'.now == m.now + 1
            && m'.data.writes == (if IsWrite(qx[0].kind) then Pushed(w, qx[0], WL(p)) else w)
            && m'.past.log == m.past.log + [Issued(m.now, qx[0])]
            && (NoWindow(m, y) ==> NoWindow(m', y))
  {
    hide Sane, Placed, Scheme, Quiet, TickBank, IssueBank, BankReady, TickAll, IssueAll, Ticked, Pushed, Wellformed,
      Eligible, Prior, GridOf, Split, Prepared, ReceiveAll, TickPipes, ReturnedBy, ReceiveRead, Picked, Command, Valid;
    var banks := TickAll(p, m.rows.banks);
    var pick := Take(x.rank, x.bank, 0, false);
    TickedScheme(p, m.sched, x, y, qx, qy);
    var st := Prepared(m.sched, None);
    TakeAllowed(p, st, banks, x, y, qx, qy, m.now);
    SchemeFacts(p, m.sched, x, y, qx, qy);
    SchemeFacts(p, st, x, y, qx, qy);
    TakenScheme(p, st, x, y, qx, qy);
    SchemeFacts(p, Picked(p, st, pick), x, y, qx[1..], qy);
    SplitScheme(p, Picked(p, st, pick), x, y, qx[1..], qy, m.waiting,
        IssueData(p, Move(p, m.data, m.rows.bus), Some(qx[0])));
    QuietIssued(p, banks, x, y, qx[0], m.now);
    QuietTicked(p, IssueAll(p, banks, qx[0], m.now), x, y);
    QueuedMore(p, m, y, qy);
  }

  // Runs.

  lemma {:induction false} RunConcat(p: Params, m: Mem, es: seq<Event>, m1: Mem, fs: seq<Event>, m2: Mem)
    requires Placed(p) && Run(p, m, es, m1) && Run(p, m1, fs, m2)
    ensures Run(p, m, es + fs, m2)
    decreases |es|
  {
    hide Next, Enabled, Placed;
    if es == [] {
      assert es + fs == fs;
    } else {
      RunConcat(p, Next(p, m, es[0]), es[1..], m1, fs, m2);
      assert (es + fs)[1..] == es[1..] + fs;
    }
  }

  lemma RunOne(p: Params, m: Mem, e: Event)
    requires Placed(p) && Enabled(p, m, e)
    ensures Run(p, m, [e], Next(p, m, e))
  {
    hide Next, Enabled, Placed;
    assert [e][1..] == [];
  }

  lemma {:induction false} WaitMany(p: Params, m: Mem, x: Place, y: Place, qx: Queue, qy: Queue, ux: int, uy: int,
      n: nat)
    returns (es: seq<Event>, m': Mem)
    requires Sane(p) && Placed(p) && Scene(p, m, x, y, qx, qy) && m.waiting == []
    requires Stalls(p, BankAt(p, m, x), qx, ux) && Stalls(p, BankAt(p, m, y), qy, uy)
    requires n > 0 ==> m.now + n <= ux && m.now + n <= uy
    ensures Run(p, m, es, m') && Scene(p, m', x, y, qx, qy) && m'.waiting == [] && m'.now == m.now + n
    ensures Stalls(p, BankAt(p, m', x), qx, ux) && Stalls(p, BankAt(p, m', y), qy, uy)
    ensures BankAt(p, m, x).countdown == 0 ==> BankAt(p, m', x) == BankAt(p, m, x)
    ensures BankAt(p, m, y).countdown == 0 ==> BankAt(p, m', y) == BankAt(p, m, y)
    ensures m'.data.writes == Ticks(m.data.writes, Burst(p), n) && (NoWindow(m, y) ==> NoWindow(m', y))
    ensures m'.past.log == m.past.log
    decreases n
  {
    hide Sane, Placed, Scene, BankAt, Cycle, CycleAllowed, Run, Ticked, NoWindow, Stalls, TickBank;
    es, m' := [], m;
    SceneFacts(p, m, x, y, qx, qy);
    if n == 0 {
      RunNone(p, m);
    } else {
      LessStalls(p, BankAt(p, m, x), qx, ux, m.now + 1);
      LessStalls(p, BankAt(p, m, y), qy, uy, m.now + 1);
      WaitStep(p, m, x, y, qx, qy);
      assert qy + [] == qy;
      var m1 := Cycle(p, m, None, Nothing);
      TickStalls(p, BankAt(p, m, x), qx, ux);
      TickStalls(p, BankAt(p, m, y), qy, uy);
      es, m' := WaitMany(p, m1, x, y, qx, qy, ux, uy, n - 1);
      RunOne(p, m, Clock(None, Nothing));
      RunConcat(p, m, [Clock(None, Nothing)], m1, es, m');
      es := [Clock(None, Nothing)] + es;
    }
  }

  lemma RunNone(p: Params, m: Mem)
    requires Placed(p)
    ensures Run(p, m, [], m)
  {
  }

  lemma LessStalls(p: Params, s: BankState, q: Queue, until: int, less: int)
    requires Stalls(p, s, q, until) && less <= until
    ensures Stalls(p, s, q, less)
  {
  }

  /** Cycles from an activate to its column command. */
  function Opening(p: Params): int { Max(p.tRCD - p.AL, 1) }

  ghost function OpenBank(p: Params, at: Place, t: int): BankState {
    TickBank(p, IssueBank(p, FreshBank, at.rank, at.bank, Packet(Activate, 0, at, 0), t))
  }

  lemma OpenBankFacts(p: Params, act: Packet, col: Packet, t: int)
    requires act.kind == Activate && IsColumn(col.kind) && col.at == act.at && t >= 0 && p.AL <= p.tRCD
    ensures TickBank(p, IssueBank(p, FreshBank, act.at.rank, act.at.bank, act, t)) == OpenBank(p, act.at, t)
    ensures OpenBank(p, act.at, t).countdown == 0 && BankReady(p, FreshBank, act, t)
    ensures Stalls(p, OpenBank(p, act.at, t), [col], t + (p.tRCD - p.AL))
    ensures BankReady(p, OpenBank(p, act.at, t), col, t + Opening(p))
  {
  }

  /** A bank of another rank, empty or closed, does not notice. */
  lemma OtherRank(p: Params, s: BankState, y: Place, c: Packet, now: int, until: int)
    requires c.at.rank != y.rank && (c.kind == Activate || IsColumn(c.kind)) && Stalls(p, s, [], until)
    ensures Stalls(p, TickBank(p, IssueBank(p, s, y.rank, y.bank, c, now)), [], until)
    ensures s == FreshBank ==> TickBank(p, IssueBank(p, s, y.rank, y.bank, c, now)) == FreshBank
  {
  }

  /** After its column command the bank stays as it is until the data has left the bus. */
  function Busy(p: Params, write: bool): int { (if write then WL(p) else 0) + Burst(p) }

  lemma UsedBank(p: Params, s: BankState, col: Packet, now: int)
    requires Sane(p) && IsColumn(col.kind) && InPolicy(p, col.kind)
    ensures Stalls(p, TickBank(p, IssueBank(p, s, col.at.rank, col.at.bank, col, now)), [],
            now + Busy(p, IsWrite(col.kind)))
  {
  }

  /** The row of x is opened, and its column command becomes ready. */
  lemma OpenRow(p: Params, m: Mem, x: Place, y: Place, act: Packet, col: Packet, until: int)
      returns (es: seq<Event>, m': Mem)
    requires Sane(p) && Placed(p) && Scene(p, m, x, y, [act, col], []) && m.waiting == [] && m.now >= 0
    requires act.kind == Activate && IsColumn(col.kind) && act.at == x && col.at == x
    requires BankAt(p, m, x) == FreshBank && Stalls(p, BankAt(p, m, y), [], until) && until >= m.now + Opening(p)
    ensures Run(p, m, es, m') && Scene(p, m', x, y, [col], []) && m'.waiting == [] && m'.now == m.now + Opening(p)
    ensures BankReady(p, BankAt(p, m', x), col, m'.now) && Stalls(p, BankAt(p, m', y), [], until)
    ensures BankAt(p, m, y) == FreshBank ==> BankAt(p, m', y) == FreshBank
    ensures m'.data.writes == Ticks(m.data.writes, Burst(p), Opening(p)) && (NoWindow(m, y) ==> NoWindow(m', y))
    ensures m'.past.log == m.past.log + [Issued(m.now, act)]
  {
    hide Sane, Placed, Scene, BankAt, Cycle, CycleAllowed, Run, Ticked, NoWindow, Stalls, TickBank, IssueBank,
      BankReady, OpenBank;
    assert p.AL <= p.tRCD by { SaneFacts(p); }
    OpenBankFacts(p, act, col, m.now);
    OtherRank(p, BankAt(p, m, y), y, act, m.now, until) by { SceneFacts(p, m, x, y, [act, col], []); }
    TakeStep(p, m, x, y, [act, col], []);
    assert [act, col][1..] == [col] && [] + Commands(p, []) == [];
    var e := Clock(None, Take(x.rank, x.bank, 0, false));
    var m1 := Cycle(p, m, None, Take(x.rank, x.bank, 0, false));
    es, m' := WaitMany(p, m1, x, y, [col], [], m.now + (p.tRCD - p.AL), until, Opening(p) - 1);
    RunOne(p, m, e);
    RunConcat(p, m, [e], m1, es, m');
    es := [e] + es;
  }

  lemma SceneFacts(p: Params, m: Mem, x: Place, y: Place, qx: Queue, qy: Queue)
    requires Scene(p, m, x, y, qx, qy)
    ensures TwoRanks(p, x, y) && GridOf(p, TickAll(p, m.rows.banks))
  {
  }

  // The collision.

  ghost function FreshMem(p: Params): Mem {
    Mem(0, Rows(seq(p.ranks, r => seq(p.banks, b => FreshBank)), seq(p.ranks, r => seq(p.banks, b => FreshRankBank)),
        None),
        Sched(seq(p.ranks, r => seq(QueuesPerRank(p), k => [])), seq(p.ranks, r => seq(p.banks, b => 0)),
            seq(p.ranks, r => []), None),
        Data(seq(p.ranks, r => EmptyPipe), EmptyPipe, [], []), [], Past([], []))
  }

  lemma FreshExists(p: Params)
    ensures Fresh(p, FreshMem(p))
  {
  }

  lemma FreshScene(p: Params, m: Mem, x: Place, y: Place)
    requires Fresh(p, m) && TwoRanks(p, x, y)
    ensures Scene(p, m, x, y, [], []) && BankAt(p, m, x) == FreshBank && BankAt(p, m, y) == FreshBank
    ensures NoWindow(m, x) && NoWindow(m, y)
  {
    var banks := TickAll(p, m.rows.banks);
    assert TickBank(p, FreshBank) == FreshBank;
    forall r: nat, b: nat | InRange(p, r, b) ensures banks[r][b] == FreshBank && QueueAt(p, m.sched, r, b) == [] {}
  }

  lemma ArriveScene(p: Params, m: Mem, x: Place, y: Place, qx: Queue, qy: Queue, write: bool, addr: nat)
    requires Scene(p, m, x, y, qx, qy)
    ensures var m' := Arrive(m, write, addr);
            && Scene(p, m', x, y, qx, qy) && BankAt(p, m', x) == BankAt(p, m, x) && BankAt(p, m', y) == BankAt(p, m, y)
            && m'.now == m.now && m'.data == m.data && m'.sched == m.sched && m'.past.log == m.past.log
            && m'.waiting == m.waiting + [Txn(write, addr, |m.past.accepted|)]
  {
  }

  /** The commands of a write, or of a read. */
  ghost predicate CommandsFor(p: Params, write: bool, act: Packet, col: Packet, at: Place) {
    act.kind == Activate && IsKind(write, col.kind) && InPolicy(p, col.kind) && act.at == at && col.at == at
  }

  lemma FreshStalls(p: Params, until: int)
    ensures Stalls(p, FreshBank, [], until) && TickBank(p, FreshBank) == FreshBank
  {
  }

  /** A transaction to the first place is queued. */
  lemma Begin(p: Params, start: Mem, write: bool, a: nat, x: Place, y: Place)
      returns (es: seq<Event>, m: Mem, act: Packet, col: Packet)
    requires Sane(p) && Placed(p) && Fresh(p, start) && TwoRanks(p, x, y) && p.place(a) == x && p.queueDepth >= 2
    ensures Run(p, start, es, m) && Scene(p, m, x, y, [act, col], []) && CommandsFor(p, write, act, col, x)
    ensures m.now == 1 && m.waiting == [] && m.data.writes == EmptyPipe && NoWindow(m, y)
    ensures BankAt(p, m, x) == FreshBank && BankAt(p, m, y) == FreshBank
  {
    hide Sane, Placed, Scene, BankAt, Cycle, CycleAllowed, Run, Stalls, TickBank, Ticked;
    var m1 := Arrive(start, write, a);
    FreshScene(p, start, y, x);
    ArriveScene(p, start, y, x, [], [], write, a);
    FreshStalls(p, 1);
    WaitStep(p, m1, y, x, [], []);
    m := Cycle(p, m1, None, Nothing);
    act, col := Commands(p, m1.waiting)[0], Commands(p, m1.waiting)[1];
    assert [] + Commands(p, m1.waiting) == [act, col];
    Exchanged(p, m, y, x, [], [act, col]);
    EmptyTick(Burst(p));
    es := [Arrives(write, a)] + [Clock(None, Nothing)];
    RunOne(p, start, Arrives(write, a));
    RunOne(p, m1, Clock(None, Nothing));
    RunConcat(p, start, [Arrives(write, a)], m1, [Clock(None, Nothing)], m);
  }

  lemma {:induction false} EmptyTicks(hold: int, n: nat)
    ensures Ticks(EmptyPipe, hold, n) == EmptyPipe
  {
    EmptyTick(hold);
    if n > 0 { EmptyTicks(hold, n - 1); }
  }

  /** The column command of the first is popped, and a transaction to the second place is queued. */
  lemma First(p: Params, start: Mem, write: bool, a: nat, b: nat, x: Place, y: Place)
    returns (es: seq<Event>, m: Mem, first: Packet, act: Packet, col: Packet)
    requires Sane(p) && Placed(p) && Fresh(p, start) && TwoRanks(p, x, y) && p.place(a) == x && p.place(b) == y
             && p.queueDepth >= 2
    ensures Run(p, start, es, m) && Scene(p, m, y, x, [act, col], []) && CommandsFor(p, write, act, col, y)
    ensures m.now >= 1 && m.waiting == [] && (write ==> m.data.writes == Solo(first, WL(p), Burst(p), 0))
    ensures BankAt(p, m, y) == FreshBank && Stalls(p, BankAt(p, m, x), [], m.now - 1 + Busy(p, write))
    ensures |m.past.log| > 0 && m.past.log[|m.past.log| - 1] == Issued(m.now - 1, first)
    ensures IsKind(write, first.kind) && first.at == x
  {
    hide Sane, Placed, Scene, BankAt, Cycle, CycleAllowed, Run, Stalls, TickBank, IssueBank, BankReady, Ticked, Fresh,
      NoWindow;
    SaneFacts(p);
    var es1, m1, act1, col1 := Begin(p, start, write, a, x, y);
    FreshStalls(p, 1 + Opening(p));
    var es2, m2 := OpenRow(p, m1, x, y, act1, col1, 1 + Opening(p));
    EmptyTicks(Burst(p), Opening(p));
    EmptyTick(Burst(p));
    var m3 := Arrive(m2, write, b);
    ArriveScene(p, m2, x, y, [col1], [], write, b);
    SceneFacts(p, m2, x, y, [col1], []);
    NoWindowSame(m2, m3, y);
    TakeStep(p, m3, x, y, [col1], []);
    var pick := Take(x.rank, x.bank, 0, false);
    m := Cycle(p, m3, None, pick);
    first, act, col := col1, Commands(p, m3.waiting)[0], Commands(p, m3.waiting)[1];
    assert [col1][1..] == [] && [] + Commands(p, m3.waiting) == [act, col];
    Exchanged(p, m, x, y, [], [act, col]);
    UsedBank(p, BankAt(p, m3, x), col1, m3.now);
    OtherRank(p, FreshBank, y, col1, m3.now, 1 + Opening(p));
    RunOne(p, m2, Arrives(write, b));
    RunOne(p, m3, Clock(None, pick));
    RunConcat(p, start, es1, m1, es2, m2);
    RunConcat(p, start, es1 + es2, m2, [Arrives(write, b)], m3);
    RunConcat(p, start, es1 + es2 + [Arrives(write, b)], m3, [Clock(None, pick)], m);
    es := es1 + es2 + [Arrives(write, b)] + [Clock(None, pick)];
  }

  lemma NoWindowSame(m: Mem, m': Mem, y: Place)
    requires NoWindow(m, y) && m'.sched == m.sched
    ensures NoWindow(m', y)
  {
  }

  /** The second column command follows too soon. */
  lemma Second(p: Params, m: Mem, write: bool, x: Place, y: Place, act: Packet, col: Packet)
      returns (es: seq<Event>, z: Mem)
    requires Sane(p) && Placed(p) && !OpensLate(p) && Scene(p, m, y, x, [act, col], [])
             && CommandsFor(p, write, act, col, y)
    requires m.now >= 1 && m.waiting == [] && BankAt(p, m, y) == FreshBank
    requires Stalls(p, BankAt(p, m, x), [], m.now - 1 + Busy(p, write))
    ensures Run(p, m, es, z) && Scene(p, z, y, x, [], []) && z.now == m.now + Opening(p) + 1 && z.waiting == []
    ensures 1 + Opening(p) < Burst(p) && z.past.log == m.past.log + [Issued(m.now, act)] + [Issued(z.now - 1, col)]
    ensures Stalls(p, BankAt(p, z, y), [], z.now - 1 + Busy(p, write))
            && Stalls(p, BankAt(p, z, x), [], m.now - 1 + Busy(p, write))
    ensures write ==> z.data.writes == Pushed(Ticks(m.data.writes, Burst(p), 1 + Opening(p)), col, WL(p))
  {
    hide Sane, Placed, Scene, BankAt, Cycle, CycleAllowed, Run, Stalls, TickBank, IssueBank, BankReady, Ticked,
      NoWindow, Ticks, Pushed;
    SaneFacts(p);
    var until := m.now - 1 + Busy(p, write);
    var es1, m1 := OpenRow(p, m, y, x, act, col, until);
    SceneFacts(p, m1, y, x, [col], []);
    TakeStep(p, m1, y, x, [col], []);
    var pick := Take(y.rank, y.bank, 0, false);
    z := Cycle(p, m1, None, pick);
    assert [col][1..] == [] && [] + Commands(p, []) == [];
    UsedBank(p, BankAt(p, m1, y), col, m1.now);
    OtherRank(p, BankAt(p, m1, x), x, col, m1.now, until);
    TicksNext(m.data.writes, Burst(p), Opening(p));
    RunOne(p, m1, Clock(None, pick));
    RunConcat(p, m, es1, m1, [Clock(None, pick)], z);
    es := es1 + [Clock(None, pick)];
  }

  /** Two writes: their data meets on the bus. */
  lemma WritesMeet(p: Params, m: Mem, x: Place, y: Place, first: Packet, act: Packet, col: Packet)
      returns (es: seq<Event>, z: Mem)
    requires Sane(p) && Placed(p) && !OpensLate(p) && Scene(p, m, y, x, [act, col], [])
             && CommandsFor(p, true, act, col, y)
    requires m.now >= 1 && m.waiting == [] && m.data.writes == Solo(first, WL(p), Burst(p), 0)
    requires BankAt(p, m, y) == FreshBank && Stalls(p, BankAt(p, m, x), [], m.now - 1 + Busy(p, true))
    ensures Run(p, m, es, z) && Collides(z.data.writes)
  {
    hide Sane, Placed, Scene, BankAt, Run, Stalls, Ticked, Collides, Ticks, Solo, Duo, Pushed, OpensLate;
    SaneFacts(p);
    var gap, until := 1 + Opening(p), m.now - 1 + Busy(p, true);
    var es1, m2 := Second(p, m, true, x, y, act, col);
    SoloTicks(first, WL(p), Burst(p), gap);
    PushedDuo(first, col, WL(p), Burst(p), gap);
    var es2, z0 := WaitMany(p, m2, y, x, [], [], m2.now - 1 + Busy(p, true), until, WL(p) - 1);
    DuoTicks(first, col, WL(p), Burst(p), gap, WL(p) - 1);
    DuoCollides(first, col, WL(p), Burst(p), gap);
    z := z0;
    RunConcat(p, m, es1, m2, es2, z);
    es := es1 + es2;
  }

  lemma PushedDuo(c: Packet, d: Packet, delay: int, hold: int, gap: int)
    ensures Pushed(Solo(c, delay, hold, gap), d, delay) == Duo(c, d, delay, hold, gap, 0)
  {
  }

  /**
   The condition of NoDataBusCollision is exact: without it a run from power-up leads to a collision.
   */
  lemma NarrowBusCollides(p: Params) returns (start: Mem, es: seq<Event>, m: Mem)
    requires Sane(p) && !BusWide(p)
    ensures Reaches(p, start, es, m) && Collides(m.data.writes)
  {
    hide Sane, Scene, BankAt, Run, Stalls, Collides, Solo, Fresh, FreshMem, OpensLate;
    assert Placed(p) by { SaneFacts(p); }
    var a: nat, b: nat :| p.place(a).rank != p.place(b).rank;
    var x, y := p.place(a), p.place(b);
    start := FreshMem(p);
    FreshExists(p);
    var es1, m1, first, act, col := First(p, start, true, a, b, x, y);
    var es2;
    es2, m := WritesMeet(p, m1, x, y, first, act, col);
    RunConcat(p, start, es1, m1, es2, m);
    es := es1 + es2;
  }

  /** It is exact for reads too: without it a run from power-up has two ranks drive the data bus at once. */
  lemma NarrowBusOverlaps(p: Params) returns (start: Mem, es: seq<Event>, m: Mem)
    requires Sane(p) && !BusWide(p)
    ensures Reaches(p, start, es, m) && ReadsOverlap(m.data.back)
  {
    hide Sane, Scene, BankAt, Run, Stalls, Collides, Solo, Fresh, FreshMem, OpensLate, ReadsOverlap, Consistent, Placed;
    SaneFacts(p);
    var a: nat, b: nat :| p.place(a).rank != p.place(b).rank;
    var x, y := p.place(a), p.place(b);
    PlacedAt(p, a);
    PlacedAt(p, b);
    start := FreshMem(p);
    FreshExists(p);
    var es1, m1, first, act, col := First(p, start, false, a, b, x, y);
    var es2, m2 := Second(p, m1, false, x, y, act, col);
    RunConcat(p, start, es1, m1, es2, m2);
    Reached(p, start, es1 + es2, m2);
    var es3;
    es3, m := ClockOn(p, m2, RL(p) + 1);
    RunConcat(p, start, es1 + es2, m2, es3, m);
    es := es1 + es2 + es3;
    Reached(p, start, es, m);
    ConsistentTraces(p, m);
    var i, j := |m1.past.log| - 1, |m2.past.log| - 1;
    assert m.past.log[i] == m2.past.log[i] == m1.past.log[i] && m.past.log[j] == m2.past.log[j];
    CloseReadsOverlap(p, m, i, j);
  }

  lemma PlacedAt(p: Params, a: nat)
    requires Placed(p)
    ensures InRange(p, p.place(a).rank, p.place(a).bank)
  {
  }

  lemma ConsistentTraces(p: Params, m: Mem)
    requires Consistent(p, m)
    ensures TracesOk(p, m)
  {
  }
}
