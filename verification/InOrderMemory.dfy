/**
 A memory device that may serve its outstanding requests in any order, except that two requests
 to one key are served in the order they were submitted.  DRAMSim2 and NVDIMMSim are seen by the
 cache controller only through this contract.  The controller's own transaction queue keeps the
 same contract, so the lemmas below are used for all three.
 */
module InOrderMemory {
  import opened Basics

  datatype Req<+K, +V> = Rd(key: K) | Wr(key: K, val: V)

  /** The contents of the memory and the requests submitted but not served, oldest first. */
  datatype Device<!K, !V> = Device(mem: K -> V, q: seq<Req<K, V>>)

  ghost function Store<K, V>(mem: K -> V, k: K, v: V): K -> V {
    x => if x == k then v else mem(x)
  }

  ghost function Apply<K, V>(mem: K -> V, r: Req<K, V>): K -> V {
    if r.Wr? then Store(mem, r.key, r.val) else mem
  }

  /** What a read of k would return if it were submitted behind q. */
  ghost function After<K, V>(mem: K -> V, q: seq<Req<K, V>>, k: K): V {
    if q == [] then mem(k)
    else
      var last := q[|q| - 1];
      if last.Wr? && last.key == k then last.val else After(mem, q[..|q| - 1], k)
  }

  /** Request i may be served: nothing older to the same key is outstanding. */
  ghost predicate Servable<K, V>(q: seq<Req<K, V>>, i: nat) {
    i < |q| && forall j :: 0 <= j < i ==> q[j].key != q[i].key
  }

  /** Serving a request: a write reaches the contents, and the request leaves the queue. */
  ghost function Serve<K, V>(d: Device<K, V>, i: nat): Device<K, V>
    requires i < |d.q|
  {
    Device(Apply(d.mem, d.q[i]), Without(d.q, i))
  }

  lemma AfterSnoc<K, V>(mem: K -> V, q: seq<Req<K, V>>, r: Req<K, V>, k: K)
    ensures After(mem, q + [r], k) == if r.Wr? && r.key == k then r.val else After(mem, q, k)
  {
    assert (q + [r])[..|q|] == q;
  }

  /** Only the writes to k matter. */
  lemma {:induction false} AfterIrrelevant<K, V>(mem: K -> V, q: seq<Req<K, V>>, k: K)
    requires forall j :: 0 <= j < |q| && q[j].Wr? ==> q[j].key != k
    ensures After(mem, q, k) == mem(k)
  {
    if q != [] { AfterIrrelevant(mem, q[..|q| - 1], k); }
  }

  lemma {:induction false} AfterConcat<K, V>(mem: K -> V, q: seq<Req<K, V>>, t: seq<Req<K, V>>, k: K)
    requires forall j :: 0 <= j < |t| && t[j].Wr? ==> t[j].key != k
    ensures After(mem, q + t, k) == After(mem, q, k)
  {
    if t == [] {
      assert q + t == q;
    } else {
      AfterConcat(mem, q, t[..|t| - 1], k);
      assert q + t == (q + t[..|t| - 1]) + [t[|t| - 1]];
      AfterSnoc(mem, q + t[..|t| - 1], t[|t| - 1], k);
    }
  }

  /** Serving any servable request changes the answer of no read submitted behind the queue. */
  lemma {:induction false} ServeKeepsAfter<K, V>(mem: K -> V, q: seq<Req<K, V>>, i: nat, k: K)
    requires Servable(q, i)
    ensures After(Apply(mem, q[i]), Without(q, i), k) == After(mem, q, k)
  {
    var mem' := Apply(mem, q[i]);
    var n := |q| - 1;
    assert q == q[..n] + [q[n]];
    AfterSnoc(mem, q[..n], q[n], k);
    if i == n {
      assert Without(q, i) == q[..n];
      MemDiffers(mem, mem', q[..n], k, q[i]);
    } else {
      ServeKeepsAfter(mem, q[..n], i, k);
      assert Without(q, i) == Without(q[..n], i) + [q[n]];
      AfterSnoc(mem', Without(q[..n], i), q[n], k);
    }
  }

  lemma {:induction false} MemDiffers<K, V>(mem: K -> V, mem': K -> V, q: seq<Req<K, V>>, k: K, r: Req<K, V>)
    requires mem' == Apply(mem, r)
    requires forall j :: 0 <= j < |q| ==> q[j].key != r.key
    ensures After(mem', q, k) == if r.Wr? && r.key == k then r.val else After(mem, q, k)
  {
    if q != [] { MemDiffers(mem, mem', q[..|q| - 1], k, r); }
    if r.key == k { AfterIrrelevant(mem', q, k); }
  }

  /** The answer that request j, a read, will get once it is served. */
  ghost function Answer<K, V>(d: Device<K, V>, j: nat): V
    requires j < |d.q|
  {
    After(d.mem, d.q[..j], d.q[j].key)
  }

  /** A request that stays behind keeps its answer, whatever else is served first. */
  lemma ServeKeepsAnswer<K, V>(d: Device<K, V>, i: nat, j: nat)
    requires Servable(d.q, i) && j < |d.q| && j != i
    ensures var j' := if j < i then j else j - 1;
            var d' := Serve(d, i);
            d'.q[j'] == d.q[j] && Answer(d', j') == Answer(d, j)
  {
    var d' := Serve(d, i);
    if j < i {
      assert d'.q[..j] == d.q[..j];
      MemIgnored(d.mem, d.q[..j], d.q[j].key, d.q[i]);
    } else {
      assert Without(d.q, i)[..j - 1] == Without(d.q[..j], i);
      assert d.q[..j][i] == d.q[i];
      ServeKeepsAfter(d.mem, d.q[..j], i, d.q[j].key);
    }
  }

  lemma {:induction false} MemIgnored<K, V>(mem: K -> V, q: seq<Req<K, V>>, k: K, r: Req<K, V>)
    requires r.key != k
    ensures After(Apply(mem, r), q, k) == After(mem, q, k)
  {
    if q != [] { MemIgnored(mem, q[..|q| - 1], k, r); }
  }

  /** A read that is served gets exactly the answer fixed when it was submitted. */
  lemma ServedAnswer<K, V>(d: Device<K, V>, i: nat)
    requires Servable(d.q, i)
    ensures Answer(d, i) == d.mem(d.q[i].key)
  {
    AfterIrrelevant(d.mem, d.q[..i], d.q[i].key);
  }
}
