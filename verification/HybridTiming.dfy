/** How long a request waits between leaving the queue and being looked up. */
module HybridTiming {
  import opened Basics
  import opened HybridGeometry
  import opened HybridController
  import opened HybridInvariant
  import opened HybridRuns

  /** The clock cycles among the events. */
  function Cycles(es: seq<Event>): nat {
    if es == [] then 0 else (if es[0].Ticks? then 1 else 0) + Cycles(es[1..])
  }

  ghost predicate SameTimer(s: Ctl, r: Outcome<Ctl>) {
    r.Fine? ==> r.value.front.active == s.front.active && r.value.front.delay == s.front.delay
  }

  lemma UnlockTimer(s: Ctl, a: Addr, victimValid: bool, victimPage: nat, slot: Slot)
    ensures SameTimer(s, ContentionUnlock(s, a, victimValid, victimPage, slot))
  {
    hide Release;
  }

  lemma DramTimer(c: Config, s: Ctl, key: DAddr, value: int)
    requires Good(c)
    ensures SameTimer(s, DramReadCallback(c, s, key, value))
  {
    hide ContentionUnlock, Decrement, Complete, Gather, ChunkWrites, PageOf;
    forall s', a, v, page, slot { UnlockTimer(s', a, v, page, slot); }
  }

  lemma FlashTimer(c: Config, s: Ctl, key: FAddr, value: nat -> int)
    requires Good(c)
    ensures SameTimer(s, FlashReadCallback(c, s, key, value))
  {
    hide ContentionUnlock, Decrement, Complete, GatherChunk, PageWrites, Merged, PageOf, Refilled;
    forall s', a, v, page, slot { UnlockTimer(s', a, v, page, slot); }
  }

  /** Only a clock cycle moves the counter, by one; and the transaction stays until it has run down. */
  lemma StepTimer(c: Config, y: Sys, e: Event)
    requires Good(c) && Enabled(c, y, e) && Next(c, y, e).Fine?
    ensures var f, f' := y.ctl.front, Next(c, y, e).value.ctl.front;
            && (!e.Ticks? ==> f'.active == f.active && f'.delay == f.delay)
            && (e.Ticks? && f.delay > 0 ==> f'.active == f.active && f'.delay == f.delay - 1)
  {
    hide DramReadCallback, FlashReadCallback, ProcessTransaction, FirstUnlocked, Complete;
    match e
    case DramServes(i) => if y.dram.q[i].Rd? { DramTimer(c, y.ctl, y.dram.q[i].key, y.dram.mem(y.dram.q[i].key)); }
    case FlashServes(i) =>
        if y.flash.q[i].Rd? { FlashTimer(c, y.ctl, y.flash.q[i].key, y.flash.mem(y.flash.q[i].key)); }
    case _ =>
  }

  lemma {:induction false} RunTimer(c: Config, y: Sys, es: seq<Event>, z: Sys)
    requires Good(c) && Run(c, y, es, z) && Cycles(es) <= y.ctl.front.delay
    ensures z.ctl.front.active == y.ctl.front.active && z.ctl.front.delay == y.ctl.front.delay - Cycles(es)
    decreases |es|
  {
    hide Next, Enabled;
    if es != [] {
      StepTimer(c, y, es[0]);
      RunTimer(c, Next(c, y, es[0]).value, es[1..], z);
    }
  }

  /** A scan takes a transaction out of the queue. */
  ghost predicate Dispatches(c: Config, y: Sys, e: Event, i: nat)
    requires Good(c) && Enabled(c, y, e) && Next(c, y, e).Fine?
  {
    && e.Ticks? && y.ctl.front.delay == 0 && i < |y.ctl.front.queue|
    && Next(c, y, e).value.ctl.front.active == Some(y.ctl.front.queue[i])
    && Next(c, y, e).value.ctl.front.queue == Without(y.ctl.front.queue, i)
  }

  /**
   A request is looked up CONTROLLER_DELAY cycles after it left the queue, and not before; without a delay it is
   looked up in the next cycle.
   */
  lemma LookedUpOnTime(c: Config, y: Sys, e: Event, i: nat, es: seq<Event>, z: Sys)
    requires Good(c) && Enabled(c, y, e) && Next(c, y, e).Fine? && Dispatches(c, y, e, i)
    requires Run(c, Next(c, y, e).value, es, z) && Cycles(es) < (if c.controllerDelay > 0 then c.controllerDelay else 1)
    ensures z.ctl.front.active == Some(y.ctl.front.queue[i])
    ensures z.ctl.front.delay == 0 <==> Cycles(es) + 1 == if c.controllerDelay > 0 then c.controllerDelay else 1
  {
    hide Run, Enabled, ProcessTransaction;
    RunTimer(c, Next(c, y, e).value, es, z);
  }
}
