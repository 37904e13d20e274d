/**
 Where every accepted request is: waiting, being served, or answered, and in exactly one of these
 places.  The access log agrees with it.
 */
module HybridLedger {
  import opened Basics
  import opened HybridGeometry
  import opened InOrderMemory
  import opened HybridController
  import opened HybridLocks

  /** A request as its caller made it; `answer` is what a flat memory would answer to a read. */
  datatype Request = Request(isWrite: bool, addr: nat, data: int, answer: int)

  datatype Ledger = Ledger(waiting: seq<Txn>, ops: Ops, done: seq<Completion>, logQueue: seq<nat>, logMap: set<nat>)

  predicate Demanded(t: Txn) { t.kind != Prefetch }

  /** The requester is still waiting: a miss answers when its line arrives, if not before. */
  predicate Open(op: Op) { Demanded(op.txn) && !op.sent && (op.miss ==> op.lineOut) }

  ghost function WaitingIds(w: seq<Txn>): set<nat> { set i | 0 <= i < |w| && Demanded(w[i]) :: w[i].id }

  ghost function OpenIds(ops: Ops): set<nat> { set a | a in ops && Open(ops[a]) :: ops[a].txn.id }

  ghost function DoneIds(done: seq<Completion>): set<nat> { set i | 0 <= i < |done| :: done[i].id }

  function One(t: Txn, x: nat): nat { if Demanded(t) && t.addr == x then 1 else 0 }

  /** How often an address waits, and how often it is logged as waiting. */
  function WaitingCount(w: seq<Txn>, x: nat): nat {
    if w == [] then 0 else WaitingCount(w[..|w| - 1], x) + One(w[|w| - 1], x)
  }

  function LogCount(q: seq<nat>, x: nat): nat {
    if q == [] then 0 else LogCount(q[..|q| - 1], x) + if q[|q| - 1] == x then 1 else 0
  }

  /** The transaction a caller's request has become. */
  ghost predicate Matches(hist: seq<Request>, t: Txn) {
    Demanded(t) ==>
      && t.id < |hist| && !InMmioHole(hist[t.id].addr) && t.addr == Remap(hist[t.id].addr)
      && hist[t.id].isWrite == (t.kind == DataWrite) && hist[t.id].data == t.data
  }

  /** One callback, to the caller's own address, with the data a flat memory would return. */
  ghost predicate Answers(hist: seq<Request>, d: Completion) {
    && d.id < |hist| && d.addr == hist[d.id].addr && d.isWrite == hist[d.id].isWrite
    && (!d.isWrite && !InMmioHole(d.addr) ==> d.value == hist[d.id].answer)
  }

  ghost predicate Known(hist: seq<Request>, g: Ledger) {
    && (forall i :: 0 <= i < |g.waiting| ==> Matches(hist, g.waiting[i]))
    && (forall a :: a in g.ops ==> Matches(hist, g.ops[a].txn))
    && (forall i :: 0 <= i < |g.done| ==> Answers(hist, g.done[i]))
  }

  /** Exactly once: the three places are disjoint, hold no request twice, and together hold them all. */
  ghost predicate Once(n: nat, g: Ledger) {
    && (forall i, j ::
       0 <= i < j < |g.waiting| && Demanded(g.waiting[i]) && Demanded(g.waiting[j])
       ==> g.waiting[i].id != g.waiting[j].id)
    && (forall a, b ::
       a in g.ops && b in g.ops && Open(g.ops[a]) && Open(g.ops[b]) && g.ops[a].txn.id == g.ops[b].txn.id ==> a == b)
    && (forall i, j :: 0 <= i < j < |g.done| ==> g.done[i].id != g.done[j].id)
    && WaitingIds(g.waiting) !! OpenIds(g.ops) !! DoneIds(g.done)
    && WaitingIds(g.waiting) + OpenIds(g.ops) + DoneIds(g.done) == UpTo(n)
  }

  ghost predicate Logged(c: Config, g: Ledger)
    requires Good(c)
  {
    && (forall x: nat :: LogCount(g.logQueue, x) == WaitingCount(g.waiting, x))
    && (forall x ::
       x in g.logMap ==> Align(c, x) in g.ops && g.ops[Align(c, x)].txn.addr == x && Open(g.ops[Align(c, x)]))
    && (forall a :: a in g.ops && Open(g.ops[a]) ==> g.ops[a].txn.addr in g.logMap)
  }

  ghost predicate Accounted(c: Config, hist: seq<Request>, g: Ledger)
    requires Good(c)
  {
    Known(hist, g) && Once(|hist|, g) && Logged(c, g)
  }

  // The address a callback reports.

  /** The MMIO remap is undone by the callback, for every address that is not dropped. */
  lemma RemapRoundTrip(addr: nat)
    requires !InMmioHole(addr)
    ensures CallbackAddr(Remap(addr)) == addr
  {
  }

  // Moves.

  lemma WaitingAppend(w: seq<Txn>, t: Txn)
    ensures WaitingIds(w + [t]) == WaitingIds(w) + if Demanded(t) then {t.id} else {}
    ensures forall x: nat :: WaitingCount(w + [t], x) == WaitingCount(w, x) + One(t, x)
  {
    var w' := w + [t];
    assert w'[..|w|] == w;
    forall x | x in WaitingIds(w) ensures x in WaitingIds(w') {
      var i :| 0 <= i < |w| && Demanded(w[i]) && w[i].id == x;
      assert w'[i] == w[i];
    }
    if Demanded(t) { assert w'[|w|] == t; }
  }

  lemma {:induction false} CountConcat(u: seq<Txn>, v: seq<Txn>, x: nat)
    ensures WaitingCount(u + v, x) == WaitingCount(u, x) + WaitingCount(v, x)
  {
    if v == [] {
      assert u + v == u;
    } else {
      var n := |v| - 1;
      CountConcat(u, v[..n], x);
      assert (u + v)[..|u + v| - 1] == u + v[..n];
    }
  }

  lemma CountOne(t: Txn, x: nat)
    ensures WaitingCount([t], x) == One(t, x)
  {
    assert [t][..0] == [];
  }

  lemma {:induction false} LogConcat(u: seq<nat>, v: seq<nat>, x: nat)
    ensures LogCount(u + v, x) == LogCount(u, x) + LogCount(v, x)
  {
    if v == [] {
      assert u + v == u;
    } else {
      var n := |v| - 1;
      LogConcat(u, v[..n], x);
      assert (u + v)[..|u + v| - 1] == u + v[..n];
    }
  }

  function ToFront(w: seq<Txn>, i: nat): seq<Txn>
    requires i < |w|
  {
    [w[i]] + Without(w, i)
  }

  /** Taking a transaction out of the queue and putting it in front. */
  lemma WaitingMoveIds(w: seq<Txn>, i: nat)
    requires i < |w|
    ensures WaitingIds(ToFront(w, i)) == WaitingIds(w)
  {
    var w' := ToFront(w, i);
    assert forall j :: 0 <= j < |w'| ==> w'[j] == w[if j == 0 then i else if j <= i then j - 1 else j];
    forall x | x in WaitingIds(w) ensures x in WaitingIds(w') {
      var j :| 0 <= j < |w| && Demanded(w[j]) && w[j].id == x;
      assert w'[if j == i then 0 else if j < i then j + 1 else j] == w[j];
    }
  }

  lemma WaitingMoveCount(w: seq<Txn>, i: nat, x: nat)
    requires i < |w|
    ensures WaitingCount(ToFront(w, i), x) == WaitingCount(w, x)
  {
    hide WaitingCount;
    var u, v := w[..i], w[i + 1..];
    assert w == u + ([w[i]] + v);
    assert ToFront(w, i) == [w[i]] + (u + v);
    CountConcat(u, [w[i]] + v, x);
    CountConcat([w[i]], v, x);
    CountConcat([w[i]], u + v, x);
    CountConcat(u, v, x);
  }

  lemma CountDrop(w: seq<Txn>, x: nat)
    requires w != []
    ensures WaitingCount(w, x) == One(w[0], x) + WaitingCount(w[1..], x)
  {
    hide WaitingCount;
    assert w == [w[0]] + w[1..];
    CountConcat([w[0]], w[1..], x);
    CountOne(w[0], x);
  }

  lemma WaitingDrop(w: seq<Txn>)
    requires w != []
    ensures WaitingIds(w) == WaitingIds(w[1..]) + if Demanded(w[0]) then {w[0].id} else {}
  {
    forall x | x in WaitingIds(w) ensures x in WaitingIds(w[1..]) + if Demanded(w[0]) then {w[0].id} else {} {
      var i :| 0 <= i < |w| && Demanded(w[i]) && w[i].id == x;
      if i > 0 { assert w[1..][i - 1] == w[i]; }
    }
    forall x | x in WaitingIds(w[1..]) ensures x in WaitingIds(w) {
      var i :| 0 <= i < |w[1..]| && Demanded(w[1..][i]) && w[1..][i].id == x;
      assert w[i + 1] == w[1..][i];
    }
  }

  lemma DoneAppend(done: seq<Completion>, d: Completion)
    ensures DoneIds(done + [d]) == DoneIds(done) + {d.id}
  {
    var done' := done + [d];
    forall x | x in DoneIds(done) ensures x in DoneIds(done') {
      var i :| 0 <= i < |done| && done[i].id == x;
      assert done'[i] == done[i];
    }
    assert done'[|done|] == d;
  }

  lemma KnownGrows(hist: seq<Request>, g: Ledger, r: Request)
    requires Known(hist, g)
    ensures Known(hist + [r], g)
  {
    assert forall i :: 0 <= i < |hist| ==> (hist + [r])[i] == hist[i];
  }

  /** A request is accepted. */
  lemma Accept(c: Config, hist: seq<Request>, g: Ledger, t: Txn, r: Request)
    requires Good(c) && Accounted(c, hist, g) && Demanded(t) && t.id == |hist| && Matches(hist + [r], t)
    ensures Accounted(c, hist + [r], g.(waiting := g.waiting + [t], logQueue := g.logQueue + [t.addr]))
  {
    var g' := g.(waiting := g.waiting + [t], logQueue := g.logQueue + [t.addr]);
    WaitingAppend(g.waiting, t);
    assert Known(hist + [r], g') by { hide Once, Logged, Matches, WaitingCount, WaitingIds; KnownGrows(hist, g, r); }
    assert Once(|hist| + 1, g') by { hide Known, Logged; AcceptOnce(|hist|, g, t); }
    hide Known, Once, WaitingCount, Align, LogCount;
    forall x: nat ensures LogCount(g'.logQueue, x) == WaitingCount(g'.waiting, x) { LogAppend(g.logQueue, t.addr, x); }
  }

  lemma LogAppend(q: seq<nat>, y: nat, x: nat)
    ensures LogCount(q + [y], x) == LogCount(q, x) + if x == y then 1 else 0
  {
    assert (q + [y])[..|q|] == q;
  }

  lemma AcceptOnce(n: nat, g: Ledger, t: Txn)
    requires Once(n, g) && Demanded(t) && t.id == n
    ensures Once(n + 1, g.(waiting := g.waiting + [t], logQueue := g.logQueue + [t.addr]))
  {
    WaitingAppend(g.waiting, t);
    hide WaitingCount;
    assert UpTo(n + 1) == UpTo(n) + {n};
    forall i | 0 <= i < |g.waiting| && Demanded(g.waiting[i]) ensures g.waiting[i].id != n {
      assert g.waiting[i].id in WaitingIds(g.waiting);
    }
  }

  /** A request to the MMIO hole is answered at once. */
  lemma AcceptDropped(c: Config, hist: seq<Request>, g: Ledger, r: Request, d: Completion)
    requires Good(c) && Accounted(c, hist, g) && d.id == |hist| && Answers(hist + [r], d)
    ensures Accounted(c, hist + [r], g.(done := g.done + [d]))
  {
    var g' := g.(done := g.done + [d]);
    assert Known(hist + [r], g') by { hide Once, Logged, Answers; KnownGrows(hist, g, r); }
    assert Once(|hist| + 1, g') by {
      hide Known, Logged;
      DoneAppend(g.done, d);
      assert UpTo(|hist| + 1) == UpTo(|hist|) + {|hist|};
      forall i | 0 <= i < |g.done| ensures g.done[i].id != d.id { assert g.done[i].id in DoneIds(g.done); }
    }
    hide Known, Once, Align;
  }

  /** A prefetch joins the queue. */
  lemma AddedPrefetch(c: Config, hist: seq<Request>, g: Ledger, u: seq<Txn>, v: seq<Txn>, t: Txn)
    requires Good(c) && Accounted(c, hist, g) && !Demanded(t) && g.waiting == u + v
    ensures Accounted(c, hist, g.(waiting := u + ([t] + v)))
  {
    hide WaitingCount, Align;
    var w, w' := g.waiting, u + ([t] + v);
    forall x: nat ensures WaitingCount(w', x) == WaitingCount(w, x) {
      CountConcat(u, v, x);
      CountConcat(u, [t] + v, x);
      CountConcat([t], v, x);
      CountOne(t, x);
    }
    assert forall j :: 0 <= j < |w'| && j != |u| ==> w'[j] == w[if j < |u| then j else j - 1];
    assert WaitingIds(w') == WaitingIds(w) by { PrefetchIds(u, v, t); }
  }

  lemma PrefetchIds(u: seq<Txn>, v: seq<Txn>, t: Txn)
    requires !Demanded(t)
    ensures WaitingIds(u + ([t] + v)) == WaitingIds(u + v)
  {
    var w, w' := u + v, u + ([t] + v);
    assert forall j :: 0 <= j < |w'| && j != |u| ==> w'[j] == w[if j < |u| then j else j - 1];
    forall x | x in WaitingIds(w) ensures x in WaitingIds(w') {
      var j :| 0 <= j < |w| && Demanded(w[j]) && w[j].id == x;
      assert w'[if j < |u| then j else j + 1] == w[j];
    }
  }

  /** A transaction leaves the queue to be looked up. */
  lemma Dispatched(c: Config, hist: seq<Request>, g: Ledger, i: nat)
    requires Good(c) && Accounted(c, hist, g) && i < |g.waiting|
    ensures Accounted(c, hist, g.(waiting := ToFront(g.waiting, i)))
  {
    hide WaitingCount, Align;
    var w' := ToFront(g.waiting, i);
    WaitingMoveIds(g.waiting, i);
    forall x: nat ensures WaitingCount(w', x) == WaitingCount(g.waiting, x) { WaitingMoveCount(g.waiting, i, x); }
    assert forall j :: 0 <= j < |w'| ==> w'[j] == g.waiting[if j == 0 then i else if j <= i then j - 1 else j];
  }

  // Leaving the queue for good.

  lemma DropOnce(n: nat, g: Ledger)
    requires Once(n, g) && g.waiting != []
    ensures var t := g.waiting[0];
            && WaitingIds(g.waiting) == WaitingIds(g.waiting[1..]) + (if Demanded(t) then {t.id} else {})
            && (Demanded(t) ==>
               t.id !in WaitingIds(g.waiting[1..]) && t.id !in OpenIds(g.ops) && t.id !in DoneIds(g.done))
  {
    hide WaitingCount;
    var t := g.waiting[0];
    WaitingDrop(g.waiting);
    if Demanded(t) {
      forall i | 0 <= i < |g.waiting[1..]| && Demanded(g.waiting[1..][i]) ensures g.waiting[1..][i].id != t.id {
        assert g.waiting[1..][i] == g.waiting[i + 1];
      }
      assert t.id in WaitingIds(g.waiting);
    }
  }

  lemma LogWithout(q: seq<nat>, i: nat, x: nat)
    requires i < |q|
    ensures LogCount(q, x) == LogCount(Without(q, i), x) + if q[i] == x then 1 else 0
  {
    assert q == q[..i] + ([q[i]] + q[i + 1..]);
    LogConcat(q[..i], [q[i]] + q[i + 1..], x);
    LogConcat([q[i]], q[i + 1..], x);
    LogConcat(q[..i], q[i + 1..], x);
    assert [q[i]][..0] == [];
  }

  lemma {:induction false} LogFound(q: seq<nat>, x: nat)
    requires LogCount(q, x) > 0
    ensures IndexOf(q, x) < |q|
  {
    var n := |q| - 1;
    if q[n] != x {
      LogFound(q[..n], x);
      assert q[IndexOf(q[..n], x)] == x;
    }
  }

  lemma LogDrop(q: seq<nat>, w: seq<Txn>)
    requires w != [] && (forall x: nat :: LogCount(q, x) == WaitingCount(w, x)) && Demanded(w[0])
    ensures var i := IndexOf(q, w[0].addr);
            i < |q| && forall x: nat :: LogCount(Without(q, i), x) == WaitingCount(w[1..], x)
  {
    hide WaitingCount, LogCount;
    CountDrop(w, w[0].addr);
    LogFound(q, w[0].addr);
    var i := IndexOf(q, w[0].addr);
    forall x: nat ensures LogCount(Without(q, i), x) == WaitingCount(w[1..], x) {
      LogWithout(q, i, x);
      CountDrop(w, x);
    }
  }

  lemma OpenedKnown(hist: seq<Request>, g: Ledger, a: Addr, op: Op, lq: seq<nat>, lm: set<nat>)
    requires Known(hist, g) && g.waiting != [] && op.txn == g.waiting[0]
    ensures Known(hist, Ledger(g.waiting[1..], g.ops[a := op], g.done, lq, lm))
  {
  }

  lemma OpenedOnce(n: nat, g: Ledger, a: Addr, op: Op, lq: seq<nat>, lm: set<nat>)
    requires Once(n, g) && g.waiting != [] && op.txn == g.waiting[0] && (Open(op) <==> Demanded(op.txn)) && a !in g.ops
    ensures Once(n, Ledger(g.waiting[1..], g.ops[a := op], g.done, lq, lm))
  {
    DropOnce(n, g);
    OpenAdd(g.ops, a, op);
    if Open(op) {
      forall b | b in g.ops && Open(g.ops[b]) ensures g.ops[b].txn.id != op.txn.id {
        assert g.ops[b].txn.id in OpenIds(g.ops);
      }
    }
    hide WaitingIds, OpenIds, DoneIds;
  }

  /** The first waiting transaction becomes an operation. */
  lemma Opened(c: Config, hist: seq<Request>, g: Ledger, a: Addr, op: Op)
    requires Good(c) && Accounted(c, hist, g) && g.waiting != [] && op.txn == g.waiting[0]
             && (Open(op) <==> Demanded(op.txn))
    requires a !in g.ops && Align(c, op.txn.addr) == a
    ensures Demanded(op.txn) ==>
              && IndexOf(g.logQueue, op.txn.addr) < |g.logQueue| && op.txn.addr !in g.logMap
              && Accounted(c, hist, Ledger(g.waiting[1..], g.ops[a := op], g.done,
                                           Without(g.logQueue, IndexOf(g.logQueue, op.txn.addr)),
                                               g.logMap + {op.txn.addr}))
    ensures !Demanded(op.txn) ==>
            Accounted(c, hist, Ledger(g.waiting[1..], g.ops[a := op], g.done, g.logQueue, g.logMap))
  {
    hide WaitingCount, Align, Known, Once;
    if Demanded(op.txn) {
      LogDrop(g.logQueue, g.waiting);
      var lq, lm := Without(g.logQueue, IndexOf(g.logQueue, op.txn.addr)), g.logMap + {op.txn.addr};
      OpenedKnown(hist, g, a, op, lq, lm);
      OpenedOnce(|hist|, g, a, op, lq, lm);
    } else {
      forall x: nat ensures WaitingCount(g.waiting[1..], x) == WaitingCount(g.waiting, x) { CountDrop(g.waiting, x); }
      OpenedKnown(hist, g, a, op, g.logQueue, g.logMap);
      OpenedOnce(|hist|, g, a, op, g.logQueue, g.logMap);
    }
  }

  lemma OpenAdd(ops: Ops, a: Addr, op: Op)
    requires a !in ops
    ensures OpenIds(ops[a := op]) == OpenIds(ops) + if Open(op) then {op.txn.id} else {}
  {
    var ops' := ops[a := op];
    forall x | x in OpenIds(ops) ensures x in OpenIds(ops') {
      var b :| b in ops && Open(ops[b]) && ops[b].txn.id == x;
      assert ops'[b] == ops[b];
    }
    if Open(op) { assert ops'[a] == op; }
  }

  /** A prefetch that hits is forgotten. */
  lemma PrefetchDropped(c: Config, hist: seq<Request>, g: Ledger)
    requires Good(c) && Accounted(c, hist, g) && g.waiting != [] && !Demanded(g.waiting[0])
    ensures Accounted(c, hist, g.(waiting := g.waiting[1..]))
  {
    hide WaitingCount, LogCount, Align;
    DropOnce(|hist|, g);
    forall x: nat ensures WaitingCount(g.waiting[1..], x) == WaitingCount(g.waiting, x) { CountDrop(g.waiting, x); }
    hide WaitingIds, OpenIds, DoneIds;
  }

  // Operations.

  lemma OpenUpdate(ops: Ops, a: Addr, op: Op)
    requires a in ops && op.txn == ops[a].txn && Open(op) == Open(ops[a])
    ensures OpenIds(ops[a := op]) == OpenIds(ops)
  {
    var ops' := ops[a := op];
    forall x | x in OpenIds(ops) ensures x in OpenIds(ops') {
      var b :| b in ops && Open(ops[b]) && ops[b].txn.id == x;
      assert Open(ops'[b]) && ops'[b].txn.id == x;
    }
  }

  /** A change of an operation that does not answer its request. */
  lemma Flags(c: Config, hist: seq<Request>, g: Ledger, a: Addr, op: Op)
    requires Good(c) && Accounted(c, hist, g) && a in g.ops && op.txn == g.ops[a].txn && Open(op) == Open(g.ops[a])
    ensures Accounted(c, hist, g.(ops := g.ops[a := op]))
  {
    OpenUpdate(g.ops, a, op);
    hide WaitingIds, OpenIds, DoneIds, WaitingCount, LogCount, Align;
  }

  /** An operation whose request is already answered, or which is a prefetch, ends. */
  lemma Ended(c: Config, hist: seq<Request>, g: Ledger, a: Addr)
    requires Good(c) && Accounted(c, hist, g) && a in g.ops && !Open(g.ops[a])
    ensures Accounted(c, hist, g.(ops := g.ops - {a}))
  {
    OpenRemove(g.ops, a);
    hide WaitingIds, OpenIds, DoneIds, WaitingCount, LogCount, Align;
  }

  lemma OpenRemove(ops: Ops, a: Addr)
    requires a in ops
    requires forall b :: b in ops && b != a && Open(ops[b]) && Open(ops[a]) ==> ops[b].txn.id != ops[a].txn.id
    ensures OpenIds(ops - {a}) == OpenIds(ops) - if Open(ops[a]) then {ops[a].txn.id} else {}
    ensures Open(ops[a]) ==> ops[a].txn.id in OpenIds(ops)
  {
    var ops' := ops - {a};
    forall x | x in OpenIds(ops) && (Open(ops[a]) ==> x != ops[a].txn.id) ensures x in OpenIds(ops') {
      var b :| b in ops && Open(ops[b]) && ops[b].txn.id == x;
      assert ops'[b] == ops[b];
    }
  }

  lemma AnsweredOnce(n: nat, g: Ledger, a: Addr, d: Completion, lm: set<nat>)
    requires Once(n, g) && a in g.ops && Open(g.ops[a]) && d.id == g.ops[a].txn.id
    ensures Once(n, Ledger(g.waiting, g.ops - {a}, g.done + [d], g.logQueue, lm))
  {
    OpenRemove(g.ops, a);
    DoneAppend(g.done, d);
    forall i | 0 <= i < |g.done| ensures g.done[i].id != d.id { assert g.done[i].id in DoneIds(g.done); }
    hide WaitingIds, OpenIds, DoneIds;
  }

  lemma AnsweredLogged(c: Config, g: Ledger, a: Addr, d: Completion)
    requires Good(c) && Logged(c, g) && a in g.ops && Open(g.ops[a]) && Align(c, g.ops[a].txn.addr) == a
    requires forall b :: b in g.ops ==> Align(c, g.ops[b].txn.addr) == b
    ensures Logged(c, Ledger(g.waiting, g.ops - {a}, g.done + [d], g.logQueue, g.logMap - {g.ops[a].txn.addr}))
  {
    hide WaitingCount, LogCount, Align;
  }

  /** The operation ends with the answer. */
  lemma Answered(c: Config, hist: seq<Request>, g: Ledger, a: Addr, d: Completion)
    requires Good(c) && Accounted(c, hist, g) && a in g.ops && Open(g.ops[a])
    requires forall b :: b in g.ops ==> Align(c, g.ops[b].txn.addr) == b
    requires d.id == g.ops[a].txn.id && Answers(hist, d)
    ensures Accounted(c, hist, Ledger(g.waiting, g.ops - {a}, g.done + [d], g.logQueue, g.logMap - {g.ops[a].txn.addr}))
  {
    assert Known(hist, Ledger(g.waiting, g.ops - {a}, g.done + [d], g.logQueue, g.logMap - {g.ops[a].txn.addr})) by
        { hide Once, Logged, Align; }
    hide Known, Once, Logged, Align;
    AnsweredOnce(|hist|, g, a, d, g.logMap - {g.ops[a].txn.addr});
    AnsweredLogged(c, g, a, d);
  }

  /** The request is answered; the operation goes on. */
  lemma AnsweredEarly(c: Config, hist: seq<Request>, g: Ledger, a: Addr, op: Op, d: Completion)
    requires Good(c) && Accounted(c, hist, g) && a in g.ops && Open(g.ops[a])
    requires forall b :: b in g.ops ==> Align(c, g.ops[b].txn.addr) == b
    requires d.id == g.ops[a].txn.id && Answers(hist, d) && op.txn == g.ops[a].txn && !Open(op)
    ensures Accounted(c, hist, Ledger(g.waiting, g.ops[a := op], g.done + [d], g.logQueue,
            g.logMap - {g.ops[a].txn.addr}))
  {
    Answered(c, hist, g, a, d);
    var g1 := Ledger(g.waiting, g.ops - {a}, g.done + [d], g.logQueue, g.logMap - {g.ops[a].txn.addr});
    assert Matches(hist, op.txn) by { hide Once, Logged, Align; }
    assert g.ops[a := op] == g1.ops[a := op];
    Inert(c, hist, g1, a, op);
  }

  /** An operation that owes no answer can be added. */
  lemma Inert(c: Config, hist: seq<Request>, g: Ledger, a: Addr, op: Op)
    requires Good(c) && Accounted(c, hist, g) && a !in g.ops && !Open(op) && Matches(hist, op.txn)
    ensures Accounted(c, hist, g.(ops := g.ops[a := op]))
  {
    OpenAdd(g.ops, a, op);
    hide WaitingIds, OpenIds, DoneIds, WaitingCount, LogCount, Align;
  }

  lemma OpenKnown(c: Config, hist: seq<Request>, g: Ledger, a: Addr)
    requires Good(c) && Accounted(c, hist, g) && a in g.ops
    ensures Matches(hist, g.ops[a].txn)
    ensures Open(g.ops[a]) ==> g.ops[a].txn.addr in g.logMap
  {
    hide WaitingIds, OpenIds, DoneIds, WaitingCount, LogCount, Align;
  }
}
