/** Crossing from one clock domain to another: how often the callback runs. */
module ClockDomain {
  import opened Arithmetic

  ghost predicate CommonMultiple(m: nat, a: nat, b: nat)
  {
    a > 0 && b > 0 && m > 0 && MultipleOf(m, a) && MultipleOf(m, b)
  }

  /** k is n divided by d, rounded up. */
  ghost predicate RoundedUp(n: nat, d: nat, k: nat) { n <= Times(k, d) < n + d }

  lemma RoundedUpUnique(n: nat, d: nat, k: nat, j: nat)
    requires d > 0 && RoundedUp(n, d, k) && RoundedUp(n, d, j)
    ensures k == j
  {
    MulAtLeast(k - j, d);
    assert (k - j) * d == k * d - j * d;
  }

  /** The callback runs exactly n * clock1 / clock2 times, rounded up, in n updates. */
  class ClockDomainCrosser {
    const callback: bool
    const clock1: nat
    const clock2: nat
    var counter1: nat
    var counter2: nat
    var calls: nat
    ghost var updates: nat
    ghost var steps: nat

    /** `updates` and `steps` count the updates and the turns of the loop since the start. */
    ghost predicate Valid() reads this {
      && clock2 > 0
      && counter2 - counter1 == Times(steps, clock2) - Times(updates, clock1)
      && counter1 <= counter2 < counter1 + clock2
      && MultipleOf(counter1, clock1) && MultipleOf(counter2, clock2)
      && (counter1 == counter2 ==> counter1 == 0)
      && calls == (if callback then steps else 0)
    }

    constructor (clock1: nat, clock2: nat, callback: bool)
      requires clock2 > 0
      ensures Valid() && this.clock1 == clock1 && this.clock2 == clock2 && this.callback == callback && updates == 0
    {
      this.clock1, this.clock2, this.callback := clock1, clock2, callback;
      counter1, counter2, calls, updates, steps := 0, 0, 0, 0, 0;
    }

    method Update()
      requires Valid()
      modifies this
      ensures Valid() && updates == old(updates) + 1
      ensures RoundedUp(Times(updates, clock1), clock2, steps) && calls == if callback then steps else 0
      ensures forall m: nat :: CommonMultiple(m, clock1, clock2) && old(counter1) < m ==> counter1 < m && counter2 <= m
    {
      hide Times, MultipleOf, CommonMultiple;
      TimesNext(updates, clock1);
      TimesNext(steps, clock2);
      if clock1 == clock2 && callback {
        calls := calls + 1;
        updates, steps := updates + 1, steps + 1;
        Idle(counter1, counter2, clock1);
        return;
      }
      NextMultiple(counter1, clock1);
      counter1 := counter1 + clock1;
      updates := updates + 1;
      ghost var c1 := counter1;
      while counter2 < counter1
        invariant counter1 == c1 && counter2 - counter1 == Times(steps, clock2) - Times(updates, clock1)
        invariant counter2 < counter1 + clock2 && MultipleOf(counter2, clock2)
        invariant calls == if callback then steps else 0
        invariant updates == old(updates) + 1
        decreases counter1 + clock2 - counter2
      {
        NextMultiple(counter2, clock2);
        TimesNext(steps, clock2);
        counter2 := counter2 + clock2;
        steps := steps + 1;
        if callback { calls := calls + 1; }
      }
      Bounded(clock1, clock2, old(counter1), counter1, counter2);
      if counter1 == counter2 {
        ZeroMultiple(clock1);
        ZeroMultiple(clock2);
        counter1, counter2 := 0, 0;
      }
    }
  }

  lemma ZeroMultiple(n: nat)
    ensures MultipleOf(0, n)
  {
  }

  /** With equal clocks both counters are multiples of the same number, so they are equal. */
  lemma Idle(a: nat, b: nat, n: nat)
    requires n > 0 && MultipleOf(a, n) && MultipleOf(b, n) && a <= b < a + n
    ensures a == b
  {
    MulAtLeast(b / n - a / n, n);
    assert b - a == (b / n - a / n) * n;
  }

  lemma {:induction false} StepBelow(a: nat, n: nat, m: nat)
    requires n > 0 && MultipleOf(a, n) && MultipleOf(m, n) && a < m
    ensures a + n <= m
  {
    MulAtLeast(m / n - a / n, n);
    assert m - a == (m / n - a / n) * n;
  }

  lemma {:induction false} CeilingBelow(a: nat, b: nat, n: nat, m: nat)
    requires n > 0 && MultipleOf(b, n) && MultipleOf(m, n) && a <= m && b < a + n
    ensures b <= m
  {
    if b > m { StepBelow(m, n, b); }
  }

  /** No counter passes a common multiple of the clocks, hence none passes the least one. */
  lemma Bounded(clock1: nat, clock2: nat, before: nat, counter1: nat, counter2: nat)
    requires clock2 > 0 && counter1 == before + clock1 && MultipleOf(before, clock1)
    requires counter1 <= counter2 < counter1 + clock2 && MultipleOf(counter2, clock2)
    ensures forall m: nat :: CommonMultiple(m, clock1, clock2) && before < m ==>
              counter1 <= m && counter2 <= m && (counter1 == m ==> counter2 == counter1)
  {
    forall m: nat | CommonMultiple(m, clock1, clock2) && before < m
      ensures counter1 <= m && counter2 <= m && (counter1 == m ==> counter2 == counter1)
    {
      StepBelow(before, clock1, m);
      CeilingBelow(counter1, counter2, clock2, m);
    }
  }
}
