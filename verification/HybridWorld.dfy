/**
 The controller object between its callers and its two memories.  The memories are ghost: they are any
 that keep the in-order contract.  Every call keeps the invariant of runs, so none of them fails.
 */
module HybridWorld {
  import opened Basics
  import opened HybridGeometry
  import opened InOrderMemory
  import opened HybridController
  import opened HybridReads
  import opened HybridInvariant
  import opened HybridRuns
  import opened HybridSystems

  class World {
    const c: Config
    const cache: HybridSystem
    var requests: nat
    ghost var sys: Sys
    ghost var aux: Aux

    ghost predicate Valid()
      reads this, cache, cache.log
    {
      Good(c) && cache.c == c && cache.State() == sys.ctl && requests == |sys.callers.hist| && Consistent(c, sys, aux)
    }

    /** Around a controller that has just been built, with memories that hold what the callers may read. */
    constructor (cache: HybridSystem, ghost start: Sys)
      requires Good(cache.c) && cache.State() == start.ctl && Starts(cache.c, start)
      ensures Valid() && this.cache == cache && sys == start
    {
      hide Consistent;
      this.c, this.cache, requests, sys := cache.c, cache, 0, start;
      ghost var g := StartConsistent(cache.c, start);
      aux := g;
    }

    /** The event that a call stands for succeeds. */
    ghost predicate Steps(before: Sys, e: Event)
      reads this, cache, cache.log
    {
      Valid() && Enabled(c, before, e) && Next(c, before, e) == Fine(sys)
    }

    method AddTransaction(isWrite: bool, addr: nat, data: int)
      requires Valid()
      modifies this, cache, cache.log
      ensures Steps(old(sys), Accepts(isWrite, addr, data))
    {
      hide Consistent, HybridController.AddTransaction;
      ghost var sys', aux' := StepSafe(c, sys, aux, Accepts(isWrite, addr, data));
      cache.AddTransaction(isWrite, addr, requests, data);
      requests := requests + 1;
      sys, aux := sys', aux';
    }

    method AddPrefetch(addr: nat)
      requires Valid()
      modifies this, cache, cache.log
      ensures Steps(old(sys), Prefetches(addr))
    {
      hide Consistent, HybridController.AddPrefetch;
      ghost var sys', aux' := StepSafe(c, sys, aux, Prefetches(addr));
      cache.AddPrefetch(addr);
      sys, aux := sys', aux';
    }

    method Update(dramTakes: bool, flashTakes: bool) returns (ok: bool)
      requires Valid()
      modifies this, cache, cache.log
      ensures ok && Steps(old(sys), Ticks(dramTakes, flashTakes))
    {
      hide Consistent, Advance, Send;
      ghost var sys', aux' := StepSafe(c, sys, aux, Ticks(dramTakes, flashTakes));
      ok := cache.Update(dramTakes, flashTakes);
      sys, aux := sys', aux';
    }

    /** The DRAM answers its i-th outstanding request, a read. */
    method DramReadCallback(key: DAddr, value: int, ghost i: nat) returns (ok: bool)
      requires Valid() && Servable(sys.dram.q, i) && sys.dram.q[i] == Rd(key) && value == sys.dram.mem(key)
      modifies this, cache, cache.log
      ensures ok && Steps(old(sys), DramServes(i))
    {
      hide Consistent, HybridController.DramReadCallback, Servable;
      ghost var sys', aux' := StepSafe(c, sys, aux, DramServes(i));
      ok := cache.DramReadCallback(key, value);
      sys, aux := sys', aux';
    }

    method FlashReadCallback(key: FAddr, value: nat -> int, ghost i: nat) returns (ok: bool)
      requires Valid() && Servable(sys.flash.q, i) && sys.flash.q[i] == Rd(key) && value == sys.flash.mem(key)
      modifies this, cache, cache.log
      ensures ok && Steps(old(sys), FlashServes(i))
    {
      hide Consistent, HybridController.FlashReadCallback, Servable;
      ghost var sys', aux' := StepSafe(c, sys, aux, FlashServes(i));
      ok := cache.FlashReadCallback(key, value);
      sys, aux := sys', aux';
    }

    method FlashCriticalLineCallback(page: nat, value: int, ghost i: nat) returns (ok: bool)
      requires Valid() && CriticalEnabled(c, sys, page, i)
      requires value == CriticalBurst(c, sys, page, i)(sys.ctl.tables.flashPending[page].flash.off)
      modifies this, cache, cache.log
      ensures ok && Steps(old(sys), CriticalComes(page, i))
    {
      hide Consistent, HybridController.FlashCriticalLineCallback, CriticalEnabled, CriticalBurst;
      ghost var sys', aux' := StepSafe(c, sys, aux, CriticalComes(page, i));
      ok := cache.FlashCriticalLineCallback(page, value);
      sys, aux := sys', aux';
    }

    /** A memory carries out a write; the controller hears nothing of it. */
    ghost method Write(e: Event)
      requires Valid() && Enabled(c, sys, e)
      requires (e.DramServes? && sys.dram.q[e.i].Wr?) || (e.FlashServes? && sys.flash.q[e.i].Wr?)
      modifies this
      ensures Steps(old(sys), e)
    {
      hide Consistent, Servable;
      var sys', aux' := StepSafe(c, sys, aux, e);
      sys, aux := sys', aux';
    }
  }
}
