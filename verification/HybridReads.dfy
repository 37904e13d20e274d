/** The reads on their way: each will return what its operation was promised. */
module HybridReads {
  import opened Basics
  import opened HybridGeometry
  import opened InOrderMemory
  import opened HybridController
  import opened HybridLocks
  import opened HybridLedger
  import opened HybridContents

  type Dram = Device<DAddr, int>
  type Flash = Device<FAddr, nat -> int>

  // Devices and new requests.

  ghost function Submit<K, V>(d: Device<K, V>, r: seq<Req<K, V>>): Device<K, V> { d.(q := d.q + r) }

  lemma SubmitOld<K, V>(d: Device<K, V>, r: seq<Req<K, V>>, j: nat)
    requires j < |d.q|
    ensures Submit(d, r).q[j] == d.q[j] && Answer(Submit(d, r), j) == Answer(d, j)
  {
    assert Submit(d, r).q[..j] == d.q[..j];
  }

  lemma SubmitRead<K, V>(d: Device<K, V>, r: seq<Req<K, V>>, j: nat)
    requires |d.q| <= j < |d.q| + |r| && forall i :: 0 <= i < |r| ==> r[i].Rd?
    ensures Submit(d, r).q[j] == r[j - |d.q|] && Answer(Submit(d, r), j) == After(d.mem, d.q, r[j - |d.q|].key)
  {
    var n := j - |d.q|;
    assert Submit(d, r).q[..j] == d.q + r[..n];
    AfterConcat(d.mem, d.q, r[..n], r[n].key);
  }

  lemma SubmitReads<K, V>(d: Device<K, V>, r: seq<Req<K, V>>, k: K)
    requires forall i :: 0 <= i < |r| ==> r[i].Rd?
    ensures After(d.mem, Submit(d, r).q, k) == After(d.mem, d.q, k)
  {
    AfterConcat(d.mem, d.q, r, k);
  }

  lemma {:induction false} AfterPageWrites(mem: DAddr -> int, q: seq<Req<DAddr, int>>, slot: Slot, n: nat,
      content: nat -> int, k: DAddr)
    ensures After(mem, q + PageWrites(slot, n, content), k) ==
            if k.slot == slot && k.off < n then content(k.off) else After(mem, q, k)
  {
    hide After;
    if n == 0 {
      assert q + PageWrites(slot, n, content) == q;
    } else {
      var w := Wr(DAddr(slot, n - 1), content(n - 1));
      AfterPageWrites(mem, q, slot, n - 1, content, k);
      assert q + PageWrites(slot, n, content) == (q + PageWrites(slot, n - 1, content)) + [w];
      AfterSnoc(mem, q + PageWrites(slot, n - 1, content), w, k);
    }
  }

  lemma {:induction false} AfterChunkWrites(mem: FAddr -> (nat -> int), q: seq<Req<FAddr, nat -> int>>, page: nat,
      n: nat, content: nat -> int, k: FAddr)
    ensures After(mem, q + ChunkWrites(page, n, content), k) ==
            if k.page == page && k.idx < n then content else After(mem, q, k)
  {
    hide After;
    if n == 0 {
      assert q + ChunkWrites(page, n, content) == q;
    } else {
      var w := Wr(FAddr(page, n - 1), content);
      AfterChunkWrites(mem, q, page, n - 1, content, k);
      assert q + ChunkWrites(page, n, content) == (q + ChunkWrites(page, n - 1, content)) + [w];
      AfterSnoc(mem, q + ChunkWrites(page, n - 1, content), w, k);
    }
  }

  ghost function ImageOf(c: Config, d: Dram, f: Flash): Image
    requires Good(c)
  {
    Image((x: DAddr) => After(d.mem, d.q, x), (x: Addr) => After(f.mem, f.q, FAddr(x.page, ChunkOf(c, x.off)))(x.off))
  }

  // Promises.

  ghost predicate DramReadOk(tb: Tables, prom: Addr -> Promise, hist: seq<Request>, key: DAddr, answer: int) {
    if key.slot in tb.dramWait then
      && key.off in tb.dramWait[key.slot] && DAddr(key.slot, 0) in tb.dramPending
      && answer == prom(tb.dramPending[DAddr(key.slot, 0)].flash).victim(key.off)
    else
      && key in tb.dramPending && tb.dramPending[key].txn.id < |hist|
      && answer == hist[tb.dramPending[key].txn.id].answer
  }

  ghost predicate DramPromised(tb: Tables, prom: Addr -> Promise, hist: seq<Request>, d: Dram) {
    && (forall j :: 0 <= j < |d.q| && d.q[j].Rd? ==> DramReadOk(tb, prom, hist, d.q[j].key, Answer(d, j)))
    && (forall i, j :: 0 <= i < j < |d.q| && d.q[i].Rd? && d.q[j].Rd? ==> d.q[i].key != d.q[j].key)
  }

  ghost predicate FlashReadOk(c: Config, tb: Tables, prom: Addr -> Promise, key: FAddr, answer: nat -> int)
    requires Good(c)
  {
    && key.page in tb.flashPending && key.page in tb.flashWait && key.idx in tb.flashWait[key.page]
    && forall o: nat :: o < Bursts(c) && ChunkOf(c, o) == key.idx ==>
         answer(o) == prom(tb.flashPending[key.page].flash).line(o)
  }

  ghost predicate FlashPromised(c: Config, tb: Tables, prom: Addr -> Promise, f: Flash)
    requires Good(c)
  {
    && (forall j :: 0 <= j < |f.q| && f.q[j].Rd? ==> FlashReadOk(c, tb, prom, f.q[j].key, Answer(f, j)))
    && (forall i, j :: 0 <= i < j < |f.q| && f.q[i].Rd? && f.q[j].Rd? ==> f.q[i].key != f.q[j].key)
  }

  /** The parts that have come back are the promised ones. */
  ghost predicate VictimSoFar(c: Config, wait: set<nat>, got: nat -> int, pr: Promise)
    requires Good(c)
  {
    forall o: nat :: o < Bursts(c) && o !in wait ==> got(o) == pr.victim(o)
  }

  ghost predicate LineSoFar(c: Config, wait: set<nat>, got: nat -> int, pr: Promise)
    requires Good(c)
  {
    forall o: nat :: o < Bursts(c) && ChunkOf(c, o) !in wait ==> got(o) == pr.line(o)
  }

  ghost predicate VictimsSoFar(c: Config, tb: Tables, prom: Addr -> Promise)
    requires Good(c)
  {
    forall slot :: slot in tb.dramWait && slot in tb.dramGot && DAddr(slot, 0) in tb.dramPending ==>
      VictimSoFar(c, tb.dramWait[slot], tb.dramGot[slot], prom(tb.dramPending[DAddr(slot, 0)].flash))
  }

  ghost predicate LinesSoFar(c: Config, tb: Tables, prom: Addr -> Promise)
    requires Good(c)
  {
    forall page :: page in tb.flashWait && page in tb.flashGot && page in tb.flashPending ==>
      LineSoFar(c, tb.flashWait[page], tb.flashGot[page], prom(tb.flashPending[page].flash))
  }

  ghost predicate Gathered(c: Config, tb: Tables, prom: Addr -> Promise)
    requires Good(c)
  {
    VictimsSoFar(c, tb, prom) && LinesSoFar(c, tb, prom)
  }

  /** Serving anything else leaves the promises in place. */
  lemma DramServed(tb: Tables, prom: Addr -> Promise, hist: seq<Request>, d: Dram, i: nat)
    requires DramPromised(tb, prom, hist, d) && Servable(d.q, i)
    ensures DramPromised(tb, prom, hist, Serve(d, i))
    ensures d.q[i].Rd? ==> DramReadOk(tb, prom, hist, d.q[i].key, d.mem(d.q[i].key))
    ensures d.q[i].Rd? ==>
            forall j :: 0 <= j < |Serve(d, i).q| && Serve(d, i).q[j].Rd? ==> Serve(d, i).q[j].key != d.q[i].key
    ensures forall x :: After(Serve(d, i).mem, Serve(d, i).q, x) == After(d.mem, d.q, x)
  {
    hide DramReadOk, After;
    var d' := Serve(d, i);
    ServedAnswer(d, i);
    forall j' | 0 <= j' < |d'.q|
      ensures d'.q[j'].Rd? ==> DramReadOk(tb, prom, hist, d'.q[j'].key, Answer(d', j'))
    {
      ServeKeepsAnswer(d, i, if j' < i then j' else j' + 1);
    }
    forall x ensures After(d'.mem, d'.q, x) == After(d.mem, d.q, x) { ServeKeepsAfter(d.mem, d.q, i, x); }
  }

  lemma FlashServed(c: Config, tb: Tables, prom: Addr -> Promise, f: Flash, i: nat)
    requires Good(c) && FlashPromised(c, tb, prom, f) && Servable(f.q, i)
    ensures FlashPromised(c, tb, prom, Serve(f, i))
    ensures f.q[i].Rd? ==> FlashReadOk(c, tb, prom, f.q[i].key, f.mem(f.q[i].key))
    ensures f.q[i].Rd? ==>
            forall j :: 0 <= j < |Serve(f, i).q| && Serve(f, i).q[j].Rd? ==> Serve(f, i).q[j].key != f.q[i].key
    ensures forall x :: After(Serve(f, i).mem, Serve(f, i).q, x) == After(f.mem, f.q, x)
  {
    hide FlashReadOk, After;
    var f' := Serve(f, i);
    ServedAnswer(f, i);
    forall j' | 0 <= j' < |f'.q|
      ensures f'.q[j'].Rd? ==> FlashReadOk(c, tb, prom, f'.q[j'].key, Answer(f', j'))
    {
      ServeKeepsAnswer(f, i, if j' < i then j' else j' + 1);
    }
    forall x ensures After(f'.mem, f'.q, x) == After(f.mem, f.q, x) { ServeKeepsAfter(f.mem, f.q, i, x); }
  }

  /** New requests, with the promises of the new reads. */
  lemma DramSubmitted(tb: Tables, tb': Tables, prom: Addr -> Promise, prom': Addr -> Promise, hist: seq<Request>,
      d: Dram, r: seq<Req<DAddr, int>>)
    requires DramPromised(tb, prom, hist, d)
    requires forall key, answer :: DramReadOk(tb, prom, hist, key, answer) ==> DramReadOk(tb', prom', hist, key, answer)
    requires forall key, answer, i ::
             DramReadOk(tb, prom, hist, key, answer) && 0 <= i < |r| && r[i].Rd? ==> r[i].key != key
    requires forall i :: 0 <= i < |r| && r[i].Rd? ==>
               && (forall j :: 0 <= j < |r| ==> r[j].Rd?)
               && DramReadOk(tb', prom', hist, r[i].key, After(d.mem, d.q, r[i].key))
    requires forall i, j :: 0 <= i < j < |r| && r[i].Rd? && r[j].Rd? ==> r[i].key != r[j].key
    ensures DramPromised(tb', prom', hist, Submit(d, r))
  {
    hide DramReadOk, After, Answer;
    var d' := Submit(d, r);
    forall j | 0 <= j < |d'.q| && d'.q[j].Rd? ensures DramReadOk(tb', prom', hist, d'.q[j].key, Answer(d', j)) {
      if j < |d.q| { SubmitOld(d, r, j); } else { assert d'.q[j] == r[j - |d.q|]; SubmitRead(d, r, j); }
    }
  }

  lemma FlashSubmitted(c: Config, tb: Tables, tb': Tables, prom: Addr -> Promise, prom': Addr -> Promise, f: Flash,
      r: seq<Req<FAddr, nat -> int>>)
    requires Good(c) && FlashPromised(c, tb, prom, f)
    requires forall key, answer :: FlashReadOk(c, tb, prom, key, answer) ==> FlashReadOk(c, tb', prom', key, answer)
    requires forall key, answer, i ::
             FlashReadOk(c, tb, prom, key, answer) && 0 <= i < |r| && r[i].Rd? ==> r[i].key != key
    requires forall i :: 0 <= i < |r| && r[i].Rd? ==>
               && (forall j :: 0 <= j < |r| ==> r[j].Rd?)
               && FlashReadOk(c, tb', prom', r[i].key, After(f.mem, f.q, r[i].key))
    requires forall i, j :: 0 <= i < j < |r| && r[i].Rd? && r[j].Rd? ==> r[i].key != r[j].key
    ensures FlashPromised(c, tb', prom', Submit(f, r))
  {
    hide FlashReadOk, After, Answer;
    var f' := Submit(f, r);
    forall j | 0 <= j < |f'.q| && f'.q[j].Rd? ensures FlashReadOk(c, tb', prom', f'.q[j].key, Answer(f', j)) {
      if j < |f.q| { SubmitOld(f, r, j); } else { assert f'.q[j] == r[j - |f.q|]; SubmitRead(f, r, j); }
    }
  }

  /** A change of the tables that concerns one served read only. */
  lemma DramRetabled(tb: Tables, tb': Tables, prom: Addr -> Promise, hist: seq<Request>, d: Dram, gone: DAddr)
    requires DramPromised(tb, prom, hist, d)
    requires forall j :: 0 <= j < |d.q| && d.q[j].Rd? ==> d.q[j].key != gone
    requires forall key, answer ::
             DramReadOk(tb, prom, hist, key, answer) && key != gone ==> DramReadOk(tb', prom, hist, key, answer)
    ensures DramPromised(tb', prom, hist, d)
  {
    hide DramReadOk, Answer;
  }

  lemma FlashRetabled(c: Config, tb: Tables, tb': Tables, prom: Addr -> Promise, f: Flash, gone: FAddr)
    requires Good(c) && FlashPromised(c, tb, prom, f)
    requires forall j :: 0 <= j < |f.q| && f.q[j].Rd? ==> f.q[j].key != gone
    requires forall key, answer ::
             FlashReadOk(c, tb, prom, key, answer) && key != gone ==> FlashReadOk(c, tb', prom, key, answer)
    ensures FlashPromised(c, tb', prom, f)
  {
    hide FlashReadOk, Answer;
  }

  // The transaction queue is an in-order memory too.

  ghost function ReqOf(c: Config, t: Txn): Req<Addr, int>
    requires Good(c)
  {
    if t.kind == DataWrite then Wr(Align(c, t.addr), t.data) else Rd(Align(c, t.addr))
  }

  ghost function Reqs(c: Config, w: seq<Txn>): seq<Req<Addr, int>>
    requires Good(c)
  {
    seq(|w|, i requires 0 <= i < |w| => ReqOf(c, w[i]))
  }

  ghost function QueueDevice(c: Config, w: seq<Txn>, spec: Addr -> int): Device<Addr, int>
    requires Good(c)
  {
    Device(spec, Reqs(c, w))
  }

  /** Applied in order, the waiting transactions answer as the flat memory did on acceptance. */
  ghost predicate Ordered(c: Config, hist: seq<Request>, w: seq<Txn>, spec: Addr -> int, flat: Addr -> int)
    requires Good(c)
  {
    && (forall i :: 0 <= i < |w| && w[i].kind == DataRead ==>
          w[i].id < |hist| && Answer(QueueDevice(c, w, spec), i) == hist[w[i].id].answer)
    && (forall x :: After(spec, Reqs(c, w), x) == flat(x))
  }

  lemma {:induction false} AfterCons<K, V>(mem: K -> V, r: Req<K, V>, q: seq<Req<K, V>>, k: K)
    ensures After(mem, [r] + q, k) == After(Apply(mem, r), q, k)
  {
    if q == [] {
      assert [r] + q == [] + [r];
      AfterSnoc(mem, [], r, k);
    } else {
      var n := |q| - 1;
      AfterCons(mem, r, q[..n], k);
      assert [r] + q == ([r] + q[..n]) + [q[n]];
      assert q == q[..n] + [q[n]];
      AfterSnoc(mem, [r] + q[..n], q[n], k);
      AfterSnoc(Apply(mem, r), q[..n], q[n], k);
    }
  }

  /** A transaction is accepted: a read is promised what the flat memory holds. */
  lemma OrderedAccept(c: Config, hist: seq<Request>, w: seq<Txn>, spec: Addr -> int, flat: Addr -> int, t: Txn,
      r: Request)
    requires Good(c) && Ordered(c, hist, w, spec, flat) && Demanded(t) && t.id == |hist|
    requires t.kind == DataRead ==> r.answer == flat(Align(c, t.addr))
    ensures Ordered(c, hist + [r], w + [t], spec, Apply(flat, ReqOf(c, t)))
  {
    hide Align;
    var w' := w + [t];
    assert Reqs(c, w') == Reqs(c, w) + [ReqOf(c, t)];
    forall i | 0 <= i < |w'| && w'[i].kind == DataRead
      ensures w'[i].id < |hist + [r]| && Answer(QueueDevice(c, w', spec), i) == (hist + [r])[w'[i].id].answer
    {
      assert Reqs(c, w')[..i] == Reqs(c, w)[..i];
      if i == |w| { assert Reqs(c, w)[..i] == Reqs(c, w); } else { assert w'[i] == w[i]; }
    }
    forall x ensures After(spec, Reqs(c, w'), x) == Apply(flat, ReqOf(c, t))(x) {
      AfterSnoc(spec, Reqs(c, w), ReqOf(c, t), x);
    }
  }

  lemma OrderedDropped(c: Config, hist: seq<Request>, w: seq<Txn>, spec: Addr -> int, flat: Addr -> int, r: Request)
    requires Good(c) && Ordered(c, hist, w, spec, flat)
    ensures Ordered(c, hist + [r], w, spec, flat)
  {
  }

  /** A transaction overtakes the others; none of them is to the same burst. */
  lemma OrderedDispatch(c: Config, hist: seq<Request>, w: seq<Txn>, spec: Addr -> int, flat: Addr -> int, i: nat)
    requires Good(c) && Ordered(c, hist, w, spec, flat) && Servable(Reqs(c, w), i)
    ensures Ordered(c, hist, ToFront(w, i), spec, flat)
  {
    hide Align;
    var w' := ToFront(w, i);
    var r := ReqOf(c, w[i]);
    assert Reqs(c, w') == [r] + Without(Reqs(c, w), i);
    forall x ensures After(spec, Reqs(c, w'), x) == flat(x) {
      AfterCons(spec, r, Without(Reqs(c, w), i), x);
      ServeKeepsAfter(spec, Reqs(c, w), i, x);
    }
    forall j' | 0 <= j' < |w'| && w'[j'].kind == DataRead
      ensures w'[j'].id < |hist| && Answer(QueueDevice(c, w', spec), j') == hist[w'[j'].id].answer
    {
      DispatchAnswer(c, w, spec, i, j');
    }
  }

  lemma DispatchAnswer(c: Config, w: seq<Txn>, spec: Addr -> int, i: nat, j': nat)
    requires Good(c) && Servable(Reqs(c, w), i) && j' < |w|
    ensures var j := if j' == 0 then i else if j' - 1 < i then j' - 1 else j';
            && ToFront(w, i)[j'] == w[j]
            && Answer(QueueDevice(c, ToFront(w, i), spec), j') == Answer(QueueDevice(c, w, spec), j)
  {
    hide Align, After;
    var w' := ToFront(w, i);
    var d := QueueDevice(c, w, spec);
    var r := ReqOf(c, w[i]);
    assert Reqs(c, w') == [r] + Without(Reqs(c, w), i);
    if j' == 0 {
      ServedAnswer(d, i);
      assert Reqs(c, w')[..0] == [];
      AfterIrrelevant(spec, [], r.key);
    } else {
      var j := if j' - 1 < i then j' - 1 else j';
      ServeKeepsAnswer(d, i, j);
      assert Reqs(c, w')[..j'] == [r] + Without(Reqs(c, w), i)[..j' - 1];
      AfterCons(spec, r, Without(Reqs(c, w), i)[..j' - 1], Align(c, w[j].addr));
    }
  }

  /** The first waiting transaction takes effect. */
  lemma OrderedProcess(c: Config, hist: seq<Request>, w: seq<Txn>, spec: Addr -> int, flat: Addr -> int)
    requires Good(c) && Ordered(c, hist, w, spec, flat) && w != []
    ensures Ordered(c, hist, w[1..], Apply(spec, ReqOf(c, w[0])), flat)
    ensures w[0].kind == DataRead ==> w[0].id < |hist| && spec(Align(c, w[0].addr)) == hist[w[0].id].answer
  {
    hide Align;
    var r := ReqOf(c, w[0]);
    assert Reqs(c, w) == [r] + Reqs(c, w[1..]);
    assert Reqs(c, w)[..0] == [];
    forall x ensures After(Apply(spec, r), Reqs(c, w[1..]), x) == flat(x) { AfterCons(spec, r, Reqs(c, w[1..]), x); }
    forall j | 0 <= j < |w[1..]| && w[1..][j].kind == DataRead
      ensures w[1..][j].id < |hist| && Answer(QueueDevice(c, w[1..], Apply(spec, r)), j) == hist[w[1..][j].id].answer
    {
      assert w[1..][j] == w[j + 1];
      assert Reqs(c, w)[..j + 1] == [r] + Reqs(c, w[1..])[..j];
      AfterCons(spec, r, Reqs(c, w[1..])[..j], Align(c, w[j + 1].addr));
    }
    if w[0].kind == DataRead { assert Answer(QueueDevice(c, w, spec), 0) == spec(Align(c, w[0].addr)); }
  }

  lemma {:induction false} AfterInsertRead<K, V>(mem: K -> V, u: seq<Req<K, V>>, r: Req<K, V>, v: seq<Req<K, V>>, k: K)
    requires r.Rd?
    ensures After(mem, u + ([r] + v), k) == After(mem, u + v, k)
  {
    if v == [] {
      assert u + ([r] + v) == u + [r] && u + v == u;
      AfterSnoc(mem, u, r, k);
    } else {
      var n := |v| - 1;
      AfterInsertRead(mem, u, r, v[..n], k);
      assert u + ([r] + v) == (u + ([r] + v[..n])) + [v[n]];
      assert u + v == (u + v[..n]) + [v[n]];
      AfterSnoc(mem, u + ([r] + v[..n]), v[n], k);
      AfterSnoc(mem, u + v[..n], v[n], k);
    }
  }

  lemma OrderedPrefetch(c: Config, hist: seq<Request>, u: seq<Txn>, v: seq<Txn>, spec: Addr -> int, flat: Addr -> int,
      t: Txn)
    requires Good(c) && Ordered(c, hist, u + v, spec, flat) && t.kind == Prefetch
    ensures Ordered(c, hist, u + ([t] + v), spec, flat)
  {
    hide Align;
    var w, w' := u + v, u + ([t] + v);
    var r := ReqOf(c, t);
    assert Reqs(c, w) == Reqs(c, u) + Reqs(c, v);
    assert Reqs(c, w') == Reqs(c, u) + ([r] + Reqs(c, v));
    forall x ensures After(spec, Reqs(c, w'), x) == flat(x) { AfterInsertRead(spec, Reqs(c, u), r, Reqs(c, v), x); }
    forall j | 0 <= j < |w'| && w'[j].kind == DataRead
      ensures w'[j].id < |hist| && Answer(QueueDevice(c, w', spec), j) == hist[w'[j].id].answer
    {
      if j < |u| {
        assert w'[j] == w[j] && Reqs(c, w')[..j] == Reqs(c, w)[..j];
      } else {
        assert w'[j] == w[j - 1];
        var n := j - 1 - |u|;
        assert Reqs(c, w')[..j] == Reqs(c, u) + ([r] + Reqs(c, v)[..n]);
        assert Reqs(c, w)[..j - 1] == Reqs(c, u) + Reqs(c, v)[..n];
        AfterInsertRead(spec, Reqs(c, u), r, Reqs(c, v)[..n], Align(c, w'[j].addr));
      }
    }
  }
}
