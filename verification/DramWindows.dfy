/** The four-activate window: any five activates of a rank span at least tFAW cycles. */
module DramWindows {
  import opened Basics
  import opened DramBanks
  import opened DramQueues
  import opened DramScheduling
  import opened DramSchedulerSteps
  import opened DramPipes
  import opened DramRuns
  import opened DramSafety

  /** The times at which a rank was activated. */
  function Activations(log: seq<Issued>, rank: nat): seq<int> {
    if log == [] then []
    else
      var e := log[|log| - 1];
      Activations(log[..|log| - 1], rank) + if e.cmd.kind == Activate && e.cmd.at.rank == rank then [e.time] else []
  }

  /** The countdowns are the ages of the latest activates. */
  ghost predicate Ages(tFAW: int, window: seq<int>, recent: seq<int>, now: int) {
    |window| == |recent| && forall i ::
        0 <= i < |recent| ==> window[i] == tFAW - (now - 1 - recent[i]) && window[i] >= 1
  }

  ghost predicate Increasing(times: seq<int>) { forall i, j :: 0 <= i < j < |times| ==> times[i] < times[j] }

  ghost predicate AllBefore(times: seq<int>, bound: int) { forall i :: 0 <= i < |times| ==> times[i] <= bound }

  /** The latest activates are counted; the ones no longer counted are old enough. */
  ghost predicate WindowOk(tFAW: int, window: seq<int>, times: seq<int>, now: int) {
    && |window| <= |times| && Increasing(times) && AllBefore(times, now - 1)
    && var k := |times| - |window|;
       Ages(tFAW, window, times[k..], now) && AllBefore(times[..k], now - 1 - tFAW)
  }

  ghost predicate FourApart(tFAW: int, times: seq<int>) {
    forall k :: 0 <= k && k + 4 < |times| ==> times[k + 4] - times[k] >= tFAW
  }

  /** Only the head can expire, because no two activates have the same age. */
  lemma AgesTick(tFAW: int, window: seq<int>, recent: seq<int>, now: int)
    requires Ages(tFAW, window, recent, now) && Increasing(recent)
    ensures if |window| > 0 && window[0] == 1
            then Ages(tFAW, TickWindow(window), recent[1..], now + 1) && recent[0] == now - tFAW
            else Ages(tFAW, TickWindow(window), recent, now + 1)
  {
    assert forall i :: 0 < i < |recent| ==> recent[0] < recent[i];
  }

  lemma WindowTick(tFAW: int, window: seq<int>, times: seq<int>, now: int)
    requires WindowOk(tFAW, window, times, now)
    ensures WindowOk(tFAW, TickWindow(window), times, now + 1)
  {
    hide TickWindow, Ages;
    var k := |times| - |window|;
    var recent := times[k..];
    AgesTick(tFAW, window, recent, now);
    AgesLength(tFAW, window, recent, now);
    if |window| > 0 && window[0] == 1 {
      AgesLength(tFAW, TickWindow(window), recent[1..], now + 1);
      assert recent[1..] == times[k + 1..] && times[..k + 1] == times[..k] + [recent[0]];
    } else {
      AgesLength(tFAW, TickWindow(window), recent, now + 1);
    }
  }

  lemma AgesLength(tFAW: int, window: seq<int>, recent: seq<int>, now: int)
    requires Ages(tFAW, window, recent, now)
    ensures |window| == |recent|
  {
  }

  lemma AgesPush(tFAW: int, window: seq<int>, recent: seq<int>, now: int)
    requires Ages(tFAW, window, recent, now + 1) && tFAW >= 1
    ensures Ages(tFAW, window + [tFAW], recent + [now], now + 1)
  {
  }

  lemma IncreasingPush(times: seq<int>, now: int)
    requires Increasing(times) && AllBefore(times, now - 1)
    ensures Increasing(times + [now]) && AllBefore(times + [now], now)
  {
  }

  /** The fifth activate waits for the first of the window to be old enough. */
  lemma SpacingPush(tFAW: int, times: seq<int>, k: nat, now: int)
    requires FourApart(tFAW, times) && k <= |times| < k + 4 && AllBefore(times[..k], now - tFAW)
    ensures FourApart(tFAW, times + [now])
  {
    assert |times| >= 4 ==> times[..k][|times| - 4] == times[|times| - 4];
  }

  /** An activate when fewer than four are counted. */
  lemma WindowPush(tFAW: int, window: seq<int>, times: seq<int>, now: int)
    requires WindowOk(tFAW, window, times, now + 1) && FourApart(tFAW, times) && |window| < 4 && tFAW >= 1
             && AllBefore(times, now - 1)
    ensures WindowOk(tFAW, window + [tFAW], times + [now], now + 1) && FourApart(tFAW, times + [now])
  {
    hide Ages, Increasing, AllBefore, FourApart;
    var k := |times| - |window|;
    AgesPush(tFAW, window, times[k..], now);
    IncreasingPush(times, now);
    SpacingPush(tFAW, times, k, now);
    assert (times + [now])[k..] == times[k..] + [now] && (times + [now])[..k] == times[..k];
  }

  ghost predicate WindowsOk(p: Params, faw: seq<seq<int>>, log: seq<Issued>, now: int) {
    |faw| == p.ranks && forall r: nat :: r < p.ranks ==>
      WindowOk(p.tFAW, faw[r], Activations(log, r), now) && FourApart(p.tFAW, Activations(log, r))
  }

  lemma ActivationsSnoc(log: seq<Issued>, e: Issued, rank: nat)
    ensures Activations(log + [e], rank) == Activations(log, rank) + if e.cmd.kind == Activate && e.cmd.at.rank == rank
            then [e.time] else []
  {
    assert (log + [e])[..|log|] == log;
  }

  /** A pick leaves the windows alone, except that an activate is counted, and only in a window with room. */
  lemma PickedWindows(p: Params, st: Sched, banks: Banks, pick: Pick, now: int)
    requires Sane(p) && SchedOk(p, st, banks) && Wellformed(p, st, banks) && TimersOk(p, banks, now)
    requires Eligible(p, st, banks, pick, now) && Valid(p, st, pick)
    ensures var c, st' := Command(p, st, pick), Picked(p, st, pick);
            if c.Some? && c.value.kind == Activate then
              c.value.at.rank < p.ranks && |st.faw[c.value.at.rank]| < 4
              && st'.faw == st.faw[c.value.at.rank := st.faw[c.value.at.rank] + [p.tFAW]]
            else st'.faw == st.faw
  {
    hide SchedOk, Sane, Wellformed, TimersOk, Scheduled, Flushed, NothingToDo, Removable, IssueAll, BankReady;
    if pick.Take? { TakeOk(p, st, banks, pick.rank, pick.bank, pick.i, pick.absorb, now); }
  }

  lemma CycleWindows(p: Params, m: Mem, refresh: Option<nat>, pick: Pick)
    requires Sane(p) && Placed(p) && Safe(p, m.rows, m.sched, m.now) && CycleAllowed(p, m, refresh, pick)
    requires WindowsOk(p, m.sched.faw, m.past.log, m.now)
    ensures var m' := Cycle(p, m, refresh, pick); WindowsOk(p, m'.sched.faw, m'.past.log, m'.now)
  {
    hide Safe, SchedOk, Picked, ReceiveAll, TimersOk, Placed, TickAll, IssueAll, Command, Eligible, Prior, Wellformed,
      ReadyCommand, WindowOk, FourApart, TickWindow;
    PoppedReady(p, m, refresh, pick);
    var st, banks := Prepared(m.sched, refresh), TickAll(p, m.rows.banks);
    PickedWindows(p, st, banks, pick, m.now);
    var c, m' := Command(p, st, pick), Cycle(p, m, refresh, pick);
    SplitWindows(p, Picked(p, st, pick), m.waiting, IssueData(p, Move(p, m.data, m.rows.bus), c));
    forall r: nat | r < p.ranks
      ensures WindowOk(p.tFAW, m'.sched.faw[r], Activations(m'.past.log, r), m'.now)
              && FourApart(p.tFAW, Activations(m'.past.log, r))
    {
      RankWindow(p, m.sched.faw[r], m.past.log, c, r, m.now);
    }
  }

  /** The window of one rank over one cycle. */
  lemma RankWindow(p: Params, window: seq<int>, log: seq<Issued>, c: Option<Packet>, rank: nat, now: int)
    requires p.tFAW >= 1 && WindowOk(p.tFAW, window, Activations(log, rank), now)
             && FourApart(p.tFAW, Activations(log, rank))
    requires var w := TickWindow(window); c.Some? && c.value.kind == Activate && c.value.at.rank == rank ==> |w| < 4
    ensures var log' := if c.Some? then log + [Issued(now, c.value)] else log;
            var w := TickWindow(window);
            var w' := if c.Some? && c.value.kind == Activate && c.value.at.rank == rank then w + [p.tFAW] else w;
            WindowOk(p.tFAW, w', Activations(log', rank), now + 1) && FourApart(p.tFAW, Activations(log', rank))
  {
    hide TickWindow, WindowOk, FourApart, Activations;
    var times := Activations(log, rank);
    WindowTick(p.tFAW, window, times, now);
    if c.Some? {
      ActivationsSnoc(log, Issued(now, c.value), rank);
      if c.value.kind == Activate && c.value.at.rank == rank {
        WindowTimes(p.tFAW, window, times, now);
        WindowPush(p.tFAW, TickWindow(window), times, now);
      } else {
        assert times + [] == times;
      }
    }
  }

  lemma WindowTimes(tFAW: int, window: seq<int>, times: seq<int>, now: int)
    requires WindowOk(tFAW, window, times, now)
    ensures AllBefore(times, now - 1)
  {
  }

  lemma SplitWindows(p: Params, st: Sched, waiting: seq<Txn>, d: Data)
    requires Shaped(p, st) && Placed(p)
    ensures Split(p, st, waiting, d).0.faw == st.faw
  {
  }
}
