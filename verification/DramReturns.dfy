/** Every read is answered: once its command is issued, its data comes back and is matched. */
module DramReturns {
  import opened Arithmetic
  import opened Basics
  import opened DramBanks
  import opened DramQueues
  import opened DramScheduling
  import opened DramSchedulerSteps
  import opened DramPipes
  import opened DramRuns
  import opened DramSafety
  import opened DramSpacing
  import opened DramWindows
  import opened DramOrder
  import opened DramData
  import opened DramReads
  import opened DramCrossRank
  import opened DramTheorems
  import opened DramProgress
  import opened DramWork
  import opened DramLiveness

  // Nothing is left to issue.

  ghost predicate Emptied(p: Params, m: Mem) {
    && Shaped(p, m.sched) && m.waiting == []
    && forall r: nat, b: nat :: InRange(p, r, b) ==> QueueAt(p, m.sched, r, b) == []
  }

  ghost predicate NoReadsFrom(log: seq<Issued>, time: int) {
    forall i :: 0 <= i < |log| && IsRead(log[i].cmd.kind) ==> log[i].time < time
  }

  lemma EmptiedStays(p: Params, m: Mem, refresh: Option<nat>, pick: Pick, time: int)
    requires Placed(p) && CycleAllowed(p, m, refresh, pick) && Emptied(p, m) && NoReadsFrom(m.past.log, time)
    ensures var m' := Cycle(p, m, refresh, pick); Emptied(p, m') && NoReadsFrom(m'.past.log, time)
    ensures Cycle(p, m, refresh, pick).data.returned
            == var back := m.data.returned + ReturnedBy(m.data.back); if back == [] then [] else back[1..]
  {
    hide Eligible, Prior, TickAll, ReceiveAll, TickWindow, Wellformed, IssueAll, Ticked, ReceiveRead, TickPipes,
      ReturnedBy;
    var st := Prepared(m.sched, refresh);
    forall r: nat, b: nat | InRange(p, r, b)
      ensures QueueAt(p, st, r, b) == []
    {
      assert QueueAt(p, m.sched, r, b) == [];
    }
    assert !pick.Take?;
    var st1 := Picked(p, st, pick);
    assert forall r: nat, b: nat :: InRange(p, r, b) ==> QueueAt(p, st1, r, b) == QueueAt(p, st, r, b);
  }

  lemma {:induction false} EmptiedRun(p: Params, m: Mem, es: seq<Event>, z: Mem, time: int)
    requires Placed(p) && Run(p, m, es, z) && NoArrivals(es) && Emptied(p, m) && NoReadsFrom(m.past.log, time)
    ensures Emptied(p, z) && NoReadsFrom(z.past.log, time)
    decreases |es|
  {
    hide Placed, Cycle, CycleAllowed, Emptied, NoReadsFrom;
    if es != [] {
      EmptiedStays(p, m, es[0].refresh, es[0].pick, time);
      EmptiedRun(p, Next(p, m, es[0]), es[1..], z, time);
    }
  }

  // The data comes back.

  /** Read latency, burst, and the cycle on the command bus. */
  function Latency(p: Params): int { RL(p) + Burst(p) + 2 }

  ghost predicate Drained(d: Pipe) { d.packets == [] && d.out == None }

  lemma HeadTraced(p: Params, d: Pipe, log: seq<Issued>, rank: nat, now: int)
    requires Traced(p, d, log, rank, now, now - 1) && Flows(d, Burst(p))
    ensures d.packets != [] ==> exists x :: x >= 1 && FromRead(p, log, rank, now, x)
    ensures d.out.Some? ==> exists x :: x >= 1 - Burst(p) && FromRead(p, log, rank, now, x)
  {
    hide FromRead, Present;
    if d.packets != [] { assert d.counts[0] >= 1; }
  }

  lemma LongAgo(p: Params, log: seq<Issued>, rank: nat, now: int, time: int, x: int)
    requires FromRead(p, log, rank, now, x) && NoReadsFrom(log, time) && now >= time + Latency(p)
    ensures x < -Burst(p)
  {
  }

  lemma PipeDrained(p: Params, d: Pipe, log: seq<Issued>, rank: nat, now: int, time: int)
    requires Traced(p, d, log, rank, now, now - 1) && Flows(d, Burst(p)) && Burst(p) >= 0
    requires NoReadsFrom(log, time) && now >= time + Latency(p)
    ensures Drained(d)
  {
    hide Traced, Flows, FromRead, Burst, Latency, NoReadsFrom;
    HeadTraced(p, d, log, rank, now);
    forall x | FromRead(p, log, rank, now, x) ensures x < -Burst(p) { LongAgo(p, log, rank, now, time, x); }
  }

  lemma PipesDrained(p: Params, m: Mem, time: int)
    requires TracesOk(p, m) && ReadPipesOk(p, m.data.back, m.past.log, m.rows.bus, m.now)
    requires NoReadsFrom(m.past.log, time) && m.now >= time + Latency(p)
    ensures forall r: nat :: r < p.ranks ==> Drained(m.data.back[r])
  {
    hide Traced, NoReadsFrom, Latency;
    forall r: nat | r < p.ranks ensures Drained(m.data.back[r]) {
      PipeFlows(m.data.back[r], Burst(p), RL(p), Since(LastRead(Arrived(m.past.log, m.rows.bus), r), m.now - 2));
      PipeDrained(p, m.data.back[r], m.past.log, r, m.now, time);
    }
  }

  lemma {:induction false} NothingReturned(back: seq<Pipe>)
    requires forall r :: 0 <= r < |back| ==> Drained(back[r])
    ensures ReturnedBy(back) == []
  {
    if back != [] { NothingReturned(back[..|back| - 1]); }
  }

  /** One sequence has at least as many of every number. */
  ghost predicate Covers(s: seq<nat>, t: seq<nat>) { forall x: nat :: Total(s, Same(x)) <= Total(t, Same(x)) }

  lemma {:induction false} CoversLonger(s: seq<nat>, t: seq<nat>)
    requires Covers(s, t)
    ensures |s| <= |t|
  {
    hide Total;
    if s != [] {
      var n := |s| - 1;
      var a := s[n];
      assert s == s[..n] + [a];
      TotalSnoc(s[..n], a, Same(a));
      assert Total(s, Same(a)) <= Total(t, Same(a));
      CountFound(t, a);
      var i := IndexOf(t, a);
      forall x: nat ensures Total(s[..n], Same(x)) <= Total(Without(t, i), Same(x)) {
        assert Total(s, Same(x)) <= Total(t, Same(x));
        TotalSnoc(s[..n], a, Same(x));
        TotalWithout(t, i, Same(x));
      }
      CoversLonger(s[..n], Without(t, i));
    }
  }

  /** No more reads are returned than are pending. */
  lemma ReturnedPending(p: Params, m: Mem)
    requires ReadsOk(m.sched, m.rows.bus, m.data)
    ensures |m.data.returned| <= |m.data.pending|
  {
    hide Total;
    forall x: nat ensures Total(m.data.returned, Same(x)) <= Total(m.data.pending, Same(x)) {
      assert Conserved(m.sched, m.rows.bus, m.data, x);
    }
    CoversLonger(m.data.returned, m.data.pending);
  }

  /** With nothing queued, on the bus or in the ranks, what is pending has been returned. */
  lemma NonePending(p: Params, m: Mem, time: int)
    requires Consistent(p, m) && Emptied(p, m) && NoReadsFrom(m.past.log, time) && m.now >= time + Latency(p)
    requires Sane(p) && m.data.returned == []
    ensures m.data.pending == []
  {
    hide Sane, Safe, SpacingOk, WindowsOk, OrderOk, CrossOk, Total, Latency;
    LatencyPositive(p);
    SaneBanks(p);
    BusIdle(p, m, time);
    PipesDrained(p, m, time);
    var none: seq<nat> := [];
    forall x: nat ensures Total(m.data.pending, Same(x)) <= Total(none, Same(x)) {
      assert Conserved(m.sched, m.rows.bus, m.data, x);
      EmptyQueues(p, m.sched, x);
      EmptyPipes(p, m.data.back, x);
      TotalNone(Same(x));
    }
    CoversLonger(m.data.pending, none);
  }

  lemma LatencyPositive(p: Params)
    requires Sane(p)
    ensures Latency(p) >= 2
  {
  }

  lemma BusIdle(p: Params, m: Mem, time: int)
    requires BusLogged(m.past.log, m.rows.bus, m.now) && NoReadsFrom(m.past.log, time) && m.now > time
    ensures m.rows.bus.Some? ==> !IsRead(m.rows.bus.value.kind)
  {
  }

  lemma EmptyQueues(p: Params, st: Sched, x: nat)
    requires Shaped(p, st) && p.banks >= 1 && forall r: nat, b: nat :: InRange(p, r, b) ==> QueueAt(p, st, r, b) == []
    ensures Total(st.queues, InRank(x)) == 0
  {
    forall r | 0 <= r < |st.queues| ensures InRank(x)(st.queues[r]) == 0 {
      forall k | 0 <= k < |st.queues[r]| ensures InQueue(x)(st.queues[r][k]) == 0 {
        assert st.queues[r][k] == QueueAt(p, st, r, k);
      }
      TotalZero(st.queues[r], InQueue(x));
    }
    TotalZero(st.queues, InRank(x));
  }

  lemma EmptyPipes(p: Params, back: seq<Pipe>, x: nat)
    requires forall r :: 0 <= r < |back| ==> Drained(back[r])
    ensures Total(back, InPipe(x)) == 0
  {
    TotalZero(back, InPipe(x));
  }

  // All of them.

  /** A read is pending only after it was accepted. */
  ghost predicate Owed(m: Mem) { |m.data.pending| + |m.waiting| <= |m.past.accepted| }

  lemma CycleOwed(p: Params, m: Mem, refresh: Option<nat>, pick: Pick)
    requires Placed(p) && CycleAllowed(p, m, refresh, pick) && Owed(m)
    ensures Owed(Cycle(p, m, refresh, pick))
  {
    hide CycleAllowed, Command, Picked, Prepared, Placed, TickAll, IssueAll, ReceiveAll, ReceiveRead, TickPipes,
      Eligible, Prior, Enqueued, FirstWithRoom, ReturnedBy, Ticked;
  }

  lemma {:induction false} RunOwed(p: Params, m: Mem, es: seq<Event>, z: Mem)
    requires Placed(p) && Run(p, m, es, z) && Owed(m)
    ensures Owed(z)
    decreases |es|
  {
    hide Placed, Cycle, CycleAllowed;
    if es != [] {
      if es[0].Clock? { CycleOwed(p, m, es[0].refresh, es[0].pick); }
      RunOwed(p, Next(p, m, es[0]), es[1..], z);
    }
  }

  lemma RunHead(p: Params, m: Mem, es: seq<Event>, z: Mem)
    requires Placed(p) && Run(p, m, es, z) && es != []
    ensures Enabled(p, m, es[0]) && Run(p, Next(p, m, es[0]), es[1..], z)
  {
  }

  lemma RunCons(p: Params, m: Mem, e: Event, es: seq<Event>, z: Mem)
    requires Placed(p) && Enabled(p, m, e) && Run(p, Next(p, m, e), es, z)
    ensures Run(p, m, [e] + es, z)
  {
    hide Placed, Enabled, Next;
    assert ([e] + es)[1..] == es;
  }

  lemma {:induction false} RunSplit(p: Params, m: Mem, es: seq<Event>, z: Mem, n: nat) returns (y: Mem)
    requires Placed(p) && Run(p, m, es, z) && n <= |es|
    ensures Run(p, m, es[..n], y) && Run(p, y, es[n..], z)
    decreases |es|
  {
    hide Placed, Next, Enabled;
    if n == 0 {
      y := m;
      assert es[..0] == [] && es[0..] == es;
    } else {
      hide Run;
      RunHead(p, m, es, z);
      y := RunSplit(p, Next(p, m, es[0]), es[1..], z, n - 1);
      RunCons(p, m, es[0], es[1..][..n - 1], y);
      assert [es[0]] + es[1..][..n - 1] == es[..n] && es[1..][n - 1..] == es[n..];
    }
  }

  /** With the ranks drained, every cycle answers one read. */
  lemma {:induction false} AnswersAll(p: Params, m: Mem, es: seq<Event>, z: Mem, time: int)
    requires Sane(p) && Placed(p) && Consistent(p, m) && Run(p, m, es, z) && NoArrivals(es) && Emptied(p, m)
    requires NoReadsFrom(m.past.log, time) && m.now >= time + Latency(p) && |es| >= |m.data.returned|
    ensures z.data.pending == []
    decreases |es|
  {
    hide Sane, Placed, Safe, SpacingOk, WindowsOk, OrderOk, ReadPipesOk, ReadsOk, CrossOk, TracesOk, Cycle,
      CycleAllowed, Emptied, NoReadsFrom, Latency;
    if es == [] {
      NonePending(p, m, time);
    } else {
      EmptiedStays(p, m, es[0].refresh, es[0].pick, time);
      PipesDrained(p, m, time);
      TracedRanks(p, m);
      NothingReturned(m.data.back);
      assert m.data.returned + [] == m.data.returned;
      CycleBack(p, m, es[0].refresh, es[0].pick);
      StepConsistent(p, m, es[0]);
      AnswersAll(p, Next(p, m, es[0]), es[1..], z, time);
    }
  }

  lemma TracedRanks(p: Params, m: Mem)
    requires TracesOk(p, m)
    ensures |m.data.back| == p.ranks
  {
  }

  /** Once arrivals stop, every read the controller has taken on is answered. */
  lemma EveryReadReturned(p: Params, start: Mem, past: seq<Event>, m: Mem, es: seq<Event>, z: Mem)
    requires Sane(p) && p.tRP >= 1 && p.queueDepth >= 2 && Reaches(p, start, past, m)
    requires Run(p, m, es, z) && NoArrivals(es)
    requires |es| >= Bound(p, m, Due(es)) + Latency(p) + |m.past.accepted|
    ensures z.data.pending == [] && z.waiting == []
  {
    hide Sane, Run, Placed, Due, Bound, Latency, Consistent, Live, Emptied, NoReadsFrom, Fresh;
    LatencyPositive(p);
    var n := Bound(p, m, Due(es));
    var y := RunSplit(p, m, es, z, n);
    var w := RunSplit(p, y, es[n..], z, Latency(p));
    var rest := es[n..][Latency(p)..];
    ReachedEmptied(p, start, past, m, es, y);
    ClocksKeep(p, m, es[..n], y);
    ClocksKeep(p, y, es[n..][..Latency(p)], w);
    EmptiedRun(p, y, es[n..][..Latency(p)], w, y.now);
    RunConsistent(p, y, es[n..][..Latency(p)], w);
    ReachedOwed(p, start, past, m, es[..n], y);
    RunOwed(p, y, es[n..][..Latency(p)], w);
    ConsistentReads(p, w);
    ReturnedPending(p, w);
    AnswersAll(p, w, rest, z, y.now);
    EmptiedRun(p, w, rest, z, y.now);
    EmptiedWaiting(p, z);
  }

  lemma EmptiedWaiting(p: Params, m: Mem)
    requires Emptied(p, m)
    ensures m.waiting == []
  {
  }

  lemma ConsistentReads(p: Params, m: Mem)
    requires Consistent(p, m)
    ensures ReadsOk(m.sched, m.rows.bus, m.data)
  {
    hide Safe, SpacingOk, WindowsOk, OrderOk, ReadPipesOk, ReadsOk, CrossOk, TracesOk;
  }

  lemma ReachedOwed(p: Params, start: Mem, past: seq<Event>, m: Mem, es: seq<Event>, y: Mem)
    requires Reaches(p, start, past, m) && Run(p, m, es, y)
    ensures Owed(y)
  {
    hide Run, Placed;
    RunOwed(p, start, past, m);
    RunOwed(p, m, es, y);
  }

  /** After the bound nothing is left to issue. */
  lemma ReachedEmptied(p: Params, start: Mem, past: seq<Event>, m: Mem, es: seq<Event>, y: Mem)
    requires Sane(p) && p.tRP >= 1 && p.queueDepth >= 2 && Reaches(p, start, past, m) && NoArrivals(es)
    requires var n := Bound(p, m, Due(es)); n <= |es| && Run(p, m, es[..n], y)
    ensures Placed(p) && Emptied(p, y) && NoReadsFrom(y.past.log, y.now) && Consistent(p, y)
  {
    hide Sane, Run, Placed, Due, Span, Left, Times, Quiet, Live, Consistent, Fresh, Emptied, NoReadsFrom;
    var n := Bound(p, m, Due(es));
    ReachedLive(p, start, past, m);
    ConsistentLog(p, m);
    SoonQuiet(p, m);
    DuePrefix(es, n);
    TimesLess(Left(p, m) + Due(es[..n]), Left(p, m) + Due(es), Span(p) + 1);
    var i, d := Drains(p, m, es[..n], y, m.now + Span(p));
    RunLive(p, m, es[..n], y);
    RunLive(p, m, es[..n][..i], d);
    DoneEmptied(p, d);
    ConsistentLog(p, y);
    EmptiedRun(p, d, es[..n][i..], y, d.now + |es|);
    LogReads(p, y);
  }

  lemma LogReads(p: Params, m: Mem)
    requires LogOk(p, m.past.log, m.now)
    ensures NoReadsFrom(m.past.log, m.now)
  {
  }

  lemma DoneEmptied(p: Params, d: Mem)
    requires Consistent(p, d) && Left(p, d) == 0
    ensures Emptied(p, d) && forall later :: later >= d.now ==> NoReadsFrom(d.past.log, later)
  {
    hide Safe, WindowsOk, ReadPipesOk, ReadsOk, CrossOk, TracesOk, Work, TickAll, Horizons, Spaced, InOrder;
    WorkDone(p, d.sched, TickAll(p, d.rows.banks), d.waiting);
  }

  lemma {:induction false} DuePrefix(es: seq<Event>, n: nat)
    requires n <= |es|
    ensures Due(es[..n]) <= Due(es)
  {
    if n > 0 {
      DuePrefix(es[1..], n - 1);
      assert es[..n][1..] == es[1..][..n - 1];
    }
  }
}
