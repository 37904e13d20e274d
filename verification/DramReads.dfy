/** Every read the controller has taken on is in exactly one place until its data is returned. */
module DramReads {
  import opened Basics
  import opened DramBanks
  import opened DramQueues
  import opened DramScheduling
  import opened DramSchedulerSteps
  import opened DramPipes
  import opened DramRuns
  import opened DramSafety
  import opened DramSpacing
  import opened DramData

  // Counting.

  function Total<T>(s: seq<T>, f: T -> nat): nat {
    if s == [] then 0 else Total(s[..|s| - 1], f) + f(s[|s| - 1])
  }

  lemma TotalSnoc<T>(s: seq<T>, e: T, f: T -> nat)
    ensures Total(s + [e], f) == Total(s, f) + f(e)
  {
    assert (s + [e])[..|s|] == s;
  }

  lemma {:induction false} TotalConcat<T>(s: seq<T>, t: seq<T>, f: T -> nat)
    ensures Total(s + t, f) == Total(s, f) + Total(t, f)
  {
    if t == [] {
      assert s + t == s;
    } else {
      var n := |t| - 1;
      TotalConcat(s, t[..n], f);
      assert (s + t)[..|s + t| - 1] == s + t[..n];
    }
  }

  lemma TotalSplit<T>(s: seq<T>, i: nat, f: T -> nat)
    requires i < |s|
    ensures Total(s, f) == Total(s[..i], f) + f(s[i]) + Total(s[i + 1..], f)
  {
    hide Total;
    var u, v := s[..i + 1], s[i + 1..];
    assert s == u + v && u == s[..i] + [s[i]];
    TotalConcat(u, v, f);
    TotalSnoc(s[..i], s[i], f);
  }

  lemma TotalWithout<T>(s: seq<T>, i: nat, f: T -> nat)
    requires i < |s|
    ensures Total(s, f) == Total(Without(s, i), f) + f(s[i])
  {
    TotalSplit(s, i, f);
    TotalConcat(s[..i], s[i + 1..], f);
  }

  lemma TotalUpdate<T>(s: seq<T>, i: nat, v: T, f: T -> nat)
    requires i < |s|
    ensures Total(s[i := v], f) + f(s[i]) == Total(s, f) + f(v)
  {
    TotalSplit(s, i, f);
    TotalSplit(s[i := v], i, f);
    assert s[i := v][..i] == s[..i] && s[i := v][i + 1..] == s[i + 1..];
  }

  lemma {:induction false} TotalPositive<T>(s: seq<T>, i: nat, f: T -> nat)
    requires i < |s|
    ensures Total(s, f) >= f(s[i])
  {
    TotalSplit(s, i, f);
  }

  lemma {:induction false} TotalZero<T>(s: seq<T>, f: T -> nat)
    requires forall i :: 0 <= i < |s| ==> f(s[i]) == 0
    ensures Total(s, f) == 0
  {
    if s != [] { TotalZero(s[..|s| - 1], f); }
  }

  function IsReadOf(c: Packet, x: nat): nat { if IsRead(c.kind) && c.addr == x then 1 else 0 }
  function ReadOf(x: nat): Packet -> nat { (c: Packet) => IsReadOf(c, x) }
  function Same(x: nat): nat -> nat { (a: nat) => if a == x then 1 else 0 }
  function InQueue(x: nat): Queue -> nat { (q: Queue) => Total(q, ReadOf(x)) }
  function InRank(x: nat): seq<Queue> -> nat { (qs: seq<Queue>) => Total(qs, InQueue(x)) }

  function PipeCount(d: Pipe, x: nat): nat
  {
    Total(d.packets, ReadOf(x)) + if d.out.Some? then IsReadOf(d.out.value, x) else 0
  }
  function InPipe(x: nat): Pipe -> nat { (d: Pipe) => PipeCount(d, x) }

  function OnBus(bus: Option<Packet>, x: nat): nat { if bus.Some? then IsReadOf(bus.value, x) else 0 }

  /** The reads of an address that are pending are in the queues, on the bus, in the ranks or returned. */
  ghost predicate Conserved(st: Sched, bus: Option<Packet>, d: Data, x: nat) {
    Total(d.pending, Same(x)) == Total(st.queues, InRank(x)) + OnBus(bus, x) + Total(d.back, InPipe(x))
        + Total(d.returned, Same(x))
  }

  /** Only reads are in the ranks' pipes. */
  ghost predicate OnlyReads(d: Pipe) {
    && |d.packets| == |d.counts| && (forall i :: 0 <= i < |d.packets| ==> IsRead(d.packets[i].kind))
    && (d.out.Some? ==> IsRead(d.out.value.kind))
  }

  // The ranks.

  lemma TickedCount(d: Pipe, hold: int, x: nat)
    requires OnlyReads(d) && !Collides(d)
    ensures OnlyReads(Ticked(d, hold))
    ensures PipeCount(d, x) == PipeCount(Ticked(d, hold), x)
            + (var e := Delivered(d); if e.Some? && e.value.addr == x then 1 else 0)
  {
    hide Total;
    if d.packets != [] { TotalSplit(d.packets, 0, ReadOf(x)); assert d.packets[..0] == []; TotalNone(ReadOf(x)); }
  }

  lemma TotalNone<T>(f: T -> nat)
    ensures Total([], f) == 0
  {
  }

  lemma {:induction false} TickPipesCount(pipes: seq<Pipe>, hold: int, x: nat)
    requires forall r :: 0 <= r < |pipes| ==> OnlyReads(pipes[r]) && !Collides(pipes[r])
    ensures Total(pipes, InPipe(x)) == Total(TickPipes(pipes, hold), InPipe(x)) + Total(ReturnedBy(pipes), Same(x))
  {
    hide OnlyReads, Collides, Ticked, PipeCount, Delivered;
    if pipes != [] {
      var n := |pipes| - 1;
      TickPipesCount(pipes[..n], hold, x);
      TickedCount(pipes[n], hold, x);
      assert TickPipes(pipes, hold)[..n] == TickPipes(pipes[..n], hold);
      var e := Delivered(pipes[n]);
      TotalConcat(ReturnedBy(pipes[..n]), if e.Some? then [e.value.addr] else [], Same(x));
      OneAddr(e, x);
    }
  }

  lemma OneAddr(e: Option<Packet>, x: nat)
    ensures Total(if e.Some? then [e.value.addr] else [], Same(x)) == if e.Some? && e.value.addr == x then 1 else 0
  {
    if e.Some? { TotalSnoc([], e.value.addr, Same(x)); assert [] + [e.value.addr] == [e.value.addr]; }
  }

  lemma PushedCount(d: Pipe, c: Packet, delay: int, x: nat)
    requires OnlyReads(d) && IsRead(c.kind)
    ensures OnlyReads(Pushed(d, c, delay)) && PipeCount(Pushed(d, c, delay), x) == PipeCount(d, x) + IsReadOf(c, x)
  {
    TotalSnoc(d.packets, c, ReadOf(x));
  }

  ghost predicate AllReads(back: seq<Pipe>) { forall r :: 0 <= r < |back| ==> OnlyReads(back[r]) }

  lemma MovedCount(p: Params, d: Data, bus: Option<Packet>, x: nat)
    requires AllReads(d.back) && (forall r :: 0 <= r < |d.back| ==> !Collides(d.back[r]))
             && (bus.Some? ==> bus.value.at.rank < |d.back|)
    ensures var d' := Move(p, d, bus);
            Total(d.back, InPipe(x)) + OnBus(bus, x) + Total(d.returned, Same(x)) == Total(d'.back, InPipe(x))
                + Total(d'.returned, Same(x))
    ensures AllReads(Move(p, d, bus).back)
  {
    hide OnlyReads, Collides, Ticked, PipeCount, Total, ReturnedBy, Pushed;
    var back1 := TickPipes(d.back, Burst(p));
    TickPipesCount(d.back, Burst(p), x);
    TotalConcat(d.returned, ReturnedBy(d.back), Same(x));
    forall r | 0 <= r < |back1| ensures OnlyReads(back1[r]) { TickedCount(d.back[r], Burst(p), x); }
    if bus.Some? && IsRead(bus.value.kind) {
      var r := bus.value.at.rank;
      PushedCount(back1[r], bus.value, RL(p), x);
      TotalUpdate(back1, r, Pushed(back1[r], bus.value, RL(p)), InPipe(x));
    }
  }

  // The queues.

  lemma RemovedCount(q: Queue, i: nat, absorb: bool, x: nat)
    requires Removable(q, i, absorb)
    ensures Total(q, ReadOf(x)) == Total(Removed(q, i, absorb), ReadOf(x)) + IsReadOf(q[i], x)
  {
    hide Total;
    var f := ReadOf(x);
    TotalWithout(q, i, f);
    if absorb {
      TotalWithout(Without(q, i), i - 1, f);
      assert Without(Without(q, i), i - 1) == Removed(q, i, true);
    } else {
      assert Without(q, i) == Removed(q, i, false);
    }
  }

  lemma WithQueueCount(p: Params, st: Sched, rank: nat, bank: nat, q: Queue, x: nat)
    requires Shaped(p, st) && InRange(p, rank, bank)
    ensures Total(WithQueue(p, st, rank, bank, q).queues, InRank(x)) + Total(QueueAt(p, st, rank, bank), ReadOf(x))
            == Total(st.queues, InRank(x)) + Total(q, ReadOf(x))
  {
    hide Total;
    var k := QueueIndex(p, bank);
    TotalUpdate(st.queues[rank], k, q, InQueue(x));
    TotalUpdate(st.queues, rank, st.queues[rank][k := q], InRank(x));
  }

  lemma PickedCount(p: Params, st: Sched, banks: Banks, pick: Pick, now: int, x: nat)
    requires Sane(p) && SchedOk(p, st, banks) && Wellformed(p, st, banks) && TimersOk(p, banks, now)
    requires Eligible(p, st, banks, pick, now) && Valid(p, st, pick)
    ensures Total(st.queues, InRank(x)) == Total(Picked(p, st, pick).queues, InRank(x)) + OnBus(Command(p, st, pick), x)
  {
    hide SchedOk, Sane, TimersOk, Eligible, Prior, IssueAll, BankReady, Removable, Total, Removed;
    if pick.Take? {
      TakeOk(p, st, banks, pick.rank, pick.bank, pick.i, pick.absorb, now);
      var q := QueueAt(p, st, pick.rank, pick.bank);
      RemovedCount(q, pick.i, pick.absorb, x);
      WithQueueCount(p, st, pick.rank, pick.bank, Removed(q, pick.i, pick.absorb), x);
    }
  }

  lemma SplitCount(p: Params, st: Sched, waiting: seq<Txn>, d: Data, bus: Option<Packet>, x: nat)
    requires Shaped(p, st) && Placed(p) && Conserved(st, bus, d, x)
    ensures var (st', waiting', d') := Split(p, st, waiting, d); Conserved(st', bus, d', x)
  {
    hide Total;
    var i := FirstWithRoom(p, st, waiting, 0);
    if i < |waiting| {
      var t := waiting[i];
      var at := p.place(t.addr);
      var q, cs := QueueAt(p, st, at.rank, at.bank), CommandsOf(p, t.isWrite, t.addr, t.id);
      WithQueueCount(p, st, at.rank, at.bank, q + cs, x);
      TotalConcat(q, cs, ReadOf(x));
      CommandsCount(p, t, x);
      TotalSnoc(d.pending, t.addr, Same(x));
    }
  }

  lemma CommandsCount(p: Params, t: Txn, x: nat)
    ensures Total(CommandsOf(p, t.isWrite, t.addr, t.id), ReadOf(x)) == if !t.isWrite && t.addr == x then 1 else 0
  {
    hide Total;
    var cs := CommandsOf(p, t.isWrite, t.addr, t.id);
    assert cs == ([] + [cs[0]]) + [cs[1]];
    TotalNone(ReadOf(x));
    TotalSnoc([], cs[0], ReadOf(x));
    TotalSnoc([] + [cs[0]], cs[1], ReadOf(x));
  }

  // Returning data.

  lemma CountFound(s: seq<nat>, x: nat)
    requires Total(s, Same(x)) > 0
    ensures IndexOf(s, x) < |s|
  {
    if IndexOf(s, x) == |s| { TotalZero(s, Same(x)); }
  }

  lemma AnsweredCount(st: Sched, bus: Option<Packet>, d: Data)
    requires forall x: nat :: Conserved(st, bus, d, x)
    ensures !Unmatched(d)
    ensures forall x: nat :: Conserved(st, bus, Answered(d), x)
  {
    hide Total;
    if d.returned != [] {
      var a := d.returned[0];
      assert Conserved(st, bus, d, a);
      TotalPositive(d.returned, 0, Same(a));
      CountFound(d.pending, a);
      var i := IndexOf(d.pending, a);
      forall x: nat ensures Conserved(st, bus, Answered(d), x) {
        assert Conserved(st, bus, d, x);
        TotalWithout(d.pending, i, Same(x));
        TotalWithout(d.returned, 0, Same(x));
        assert Without(d.returned, 0) == d.returned[1..];
      }
    }
  }

  ghost predicate ReadsOk(st: Sched, bus: Option<Packet>, d: Data) {
    AllReads(d.back) && forall x: nat :: Conserved(st, bus, d, x)
  }

  /** The data as the end of the cycle finds it, before one read is answered. */
  ghost function BeforeAnswer(p: Params, m: Mem, refresh: Option<nat>, pick: Pick): Data
    requires Placed(p) && CycleAllowed(p, m, refresh, pick)
  {
    var st := Prepared(m.sched, refresh);
    Split(p, Picked(p, st, pick), m.waiting, IssueData(p, Move(p, m.data, m.rows.bus), Command(p, st, pick))).2
  }

  lemma CycleConserves(p: Params, m: Mem, refresh: Option<nat>, pick: Pick)
    requires Sane(p) && Placed(p) && Safe(p, m.rows, m.sched, m.now) && CycleAllowed(p, m, refresh, pick)
    requires |m.data.back| == p.ranks && (forall r :: 0 <= r < p.ranks ==> !Collides(m.data.back[r]))
    requires ReadsOk(m.sched, m.rows.bus, m.data)
    ensures var m' := Cycle(p, m, refresh, pick); ReadsOk(m'.sched, m'.rows.bus, m'.data)
    ensures !Unmatched(BeforeAnswer(p, m, refresh, pick))
  {
    hide SchedOk, Picked, ReceiveAll, TimersOk, TickAll, IssueAll, Command, Eligible, Prior, ReadyCommand, Split, Sane,
      Linked, Answered, Total, Collides, Unmatched, OnlyReads;
    PoppedReady(p, m, refresh, pick);
    BusRange(p, m.rows, m.now);
    var st, banks := Prepared(m.sched, refresh), TickAll(p, m.rows.banks);
    var c := Command(p, st, pick);
    var d1 := IssueData(p, Move(p, m.data, m.rows.bus), c);
    var (st2, waiting, d2) := Split(p, Picked(p, st, pick), m.waiting, d1);
    MovedCount(p, m.data, m.rows.bus, 0);
    forall x: nat ensures Conserved(st2, c, d2, x) {
      assert Conserved(m.sched, m.rows.bus, m.data, x);
      MovedCount(p, m.data, m.rows.bus, x);
      PickedCount(p, st, banks, pick, m.now, x);
      assert Conserved(Picked(p, st, pick), c, d1, x);
      SplitCount(p, Picked(p, st, pick), m.waiting, d1, c, x);
    }
    SplitBack(p, Picked(p, st, pick), m.waiting, d1);
    AnsweredCount(st2, c, d2);
    AnsweredBack(d2);
  }

  lemma BusRange(p: Params, w: Rows, now: int)
    requires Linked(p, w, now)
    ensures w.bus.Some? ==> w.bus.value.at.rank < p.ranks
  {
  }

  lemma SplitBack(p: Params, st: Sched, waiting: seq<Txn>, d: Data)
    requires Shaped(p, st) && Placed(p)
    ensures Split(p, st, waiting, d).2.back == d.back
  {
  }

  lemma AnsweredBack(d: Data)
    ensures Answered(d).back == d.back
  {
  }
}
