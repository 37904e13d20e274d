/**
 A delay line feeding a bus: packets wait a fixed number of cycles, then occupy the bus for `hold`
 cycles.  A rank returns read data through one, the controller sends write data through another.
 */
module DramPipes {
  import opened Basics
  import opened DramBanks

  datatype Pipe = Pipe(packets: seq<Packet>, counts: seq<int>, out: Option<Packet>, left: int)

  const EmptyPipe := Pipe([], [], None, 0)

  function Decreased(counts: seq<int>): (r: seq<int>)
    ensures |r| == |counts| && forall i :: 0 <= i < |r| ==> r[i] == counts[i] - 1
  {
    seq(|counts|, i requires 0 <= i < |counts| => counts[i] - 1)
  }

  /** The loop that decrements every countdown. */
  method CountDown(counts: seq<int>) returns (r: seq<int>)
    ensures r == Decreased(counts)
  {
    r := counts;
    for i := 0 to |counts|
      invariant |r| == |counts|
      invariant forall k :: 0 <= k < i ==> r[k] == counts[k] - 1
      invariant forall k :: i <= k < |r| ==> r[k] == counts[k]
    {
      r := r[i := r[i] - 1];
    }
  }

  /** The bus first: a packet whose last cycle has passed is delivered. */
  function BusTick(d: Pipe): Pipe {
    if d.out == None then d
    else if d.left == 1 then d.(out := None, left := 0)
    else d.(left := d.left - 1)
  }

  function Delivered(d: Pipe): Option<Packet> { if d.out.Some? && d.left == 1 then d.out else None }

  /** A packet is due on a bus that is still taken. */
  predicate Collides(d: Pipe) { |d.counts| > 0 && d.counts[0] == 1 && BusTick(d).out.Some? }

  /** Then the countdowns, and the head goes on the bus when its time has come. */
  function Ticked(d: Pipe, hold: int): Pipe {
    var d1 := BusTick(d);
    var counts := Decreased(d.counts);
    if |counts| > 0 && |d.packets| > 0 && counts[0] == 0
        then Pipe(d.packets[1..], counts[1..], Some(d.packets[0]), hold)
    else d1.(counts := counts)
  }

  function Pushed(d: Pipe, c: Packet, delay: int): Pipe { d.(packets := d.packets + [c], counts := d.counts + [delay]) }

  /** Packets leave in order, `hold` cycles apart, and never before the bus is free. */
  ghost predicate Flows(d: Pipe, hold: int) {
    && |d.packets| == |d.counts|
    && (forall i :: 0 <= i < |d.counts| ==> d.counts[i] >= 1)
    && (forall i, j :: 0 <= i < j < |d.counts| ==> d.counts[j] >= d.counts[i] + hold)
    && (d.out.Some? ==> 1 <= d.left <= hold && forall i :: 0 <= i < |d.counts| ==> d.counts[i] >= d.left)
  }

  /** The latest packet was pushed at least `age` cycles ago. */
  ghost predicate Aged(d: Pipe, hold: int, delay: int, age: int) {
    && (forall i :: 0 <= i < |d.counts| ==> d.counts[i] <= delay - age)
    && (d.out.Some? ==> d.left <= delay + hold - age)
  }

  lemma FlowsNoCollision(d: Pipe, hold: int)
    requires Flows(d, hold)
    ensures !Collides(d)
  {
  }

  lemma FlowsTick(d: Pipe, hold: int, delay: int, age: int)
    requires Flows(d, hold) && hold >= 1 && Aged(d, hold, delay, age)
    ensures Flows(Ticked(d, hold), hold) && Aged(Ticked(d, hold), hold, delay, age + 1)
  {
    if |d.counts| > 0 && d.counts[0] == 1 {
      HeadLeaves(d, hold, delay, age);
    } else {
      NoneLeaves(d, hold, delay, age);
    }
  }

  lemma HeadLeaves(d: Pipe, hold: int, delay: int, age: int)
    requires Flows(d, hold) && hold >= 1 && Aged(d, hold, delay, age) && |d.counts| > 0 && d.counts[0] == 1
    ensures Flows(Ticked(d, hold), hold) && Aged(Ticked(d, hold), hold, delay, age + 1)
  {
    var d' := Ticked(d, hold);
    assert forall i :: 0 <= i < |d'.counts| ==> d'.counts[i] == d.counts[i + 1] - 1;
    assert forall i :: 0 < i < |d.counts| ==> d.counts[i] >= d.counts[0] + hold;
  }

  lemma NoneLeaves(d: Pipe, hold: int, delay: int, age: int)
    requires Flows(d, hold) && hold >= 1 && Aged(d, hold, delay, age) && (|d.counts| > 0 ==> d.counts[0] != 1)
    ensures Flows(Ticked(d, hold), hold) && Aged(Ticked(d, hold), hold, delay, age + 1)
  {
    assert forall i :: 0 < i < |d.counts| ==> d.counts[i] >= d.counts[0] + hold;
  }

  lemma FlowsPush(d: Pipe, c: Packet, hold: int, delay: int, age: int)
    requires Flows(d, hold) && Aged(d, hold, delay, age) && age >= hold >= 1 && delay >= 1
    ensures Flows(Pushed(d, c, delay), hold) && Aged(Pushed(d, c, delay), hold, delay, 0)
  {
  }
}
