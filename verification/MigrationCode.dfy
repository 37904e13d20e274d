/** The sender and the receiver as they are written: loops over pages, words and records. */
module MigrationCode {
  import opened Arithmetic
  import opened Basics
  import opened RoundRobin
  import opened MigrationStream
  import opened MigrationRam
  import opened MigrationRoundTrip
  import opened MigrationRuns

  // Pages of one byte.

  lemma {:induction false} GetInjective(a: seq<Byte>, b: seq<Byte>)
    requires |a| == |b| && Get(a) == Get(b)
    ensures a == b
  {
    if |a| > 0 {
      var n := |a| - 1;
      GetInjective(a[..n], b[..n]);
      assert a == a[..n] + [a[n]] && b == b[..n] + [b[n]];
    }
  }

  /** The test compares the page word by word with four copies of the byte. */
  method IsDupPage(page: Page, ch: Byte) returns (r: bool)
    requires |page| % 4 == 0
    ensures r <==> forall i :: 0 <= i < |page| ==> page[i] == ch
  {
    var val := Get([ch, ch, ch, ch]);
    for i := 0 to |page| / 4
      invariant forall j :: 0 <= j < 4 * i ==> page[j] == ch
    {
      var word := page[4 * i..4 * i + 4];
      if Get(word) != val {
        assert word != [ch, ch, ch, ch];
        assert page[4 * i] == word[0] && page[4 * i + 1] == word[1] && page[4 * i + 2] == word[2]
            && page[4 * i + 3] == word[3];
        return false;
      }
      GetInjective(word, [ch, ch, ch, ch]);
      forall j | 4 * i <= j < 4 * i + 4 ensures page[j] == ch { assert page[j] == word[j - 4 * i]; }
    }
    return true;
  }

  // The order of the scan.

  function Before(ram: Ram, b: nat): nat
    requires b <= |ram|
  {
    if b == 0 then 0 else Before(ram, b - 1) + |ram[b - 1].pages|
  }

  function Index(ram: Ram, x: Pos): nat
    requires x.block <= |ram|
  {
    Before(ram, x.block) + x.page
  }

  /** The next page, and from the last page of the last block back to the first. */
  function NextPos(ram: Ram, x: Pos): Pos
    requires InRam(ram, x)
  {
    if x.page + 1 < |ram[x.block].pages| then Pos(x.block, x.page + 1)
    else Pos(if x.block + 1 < |ram| then x.block + 1 else 0, 0)
  }

  ghost predicate NoEmptyBlock(ram: Ram) { |ram| > 0 && forall b :: 0 <= b < |ram| ==> |ram[b].pages| > 0 }

  lemma {:induction false} BeforeMonotone(ram: Ram, a: nat, b: nat)
    requires a <= b <= |ram|
    ensures Before(ram, a) <= Before(ram, b)
    ensures a < b ==> Before(ram, a) + |ram[a].pages| <= Before(ram, b)
  {
    if a < b { BeforeMonotone(ram, a, b - 1); }
  }

  lemma IndexInjective(ram: Ram, x: Pos, y: Pos)
    requires InRam(ram, x) && InRam(ram, y) && Index(ram, x) == Index(ram, y)
    ensures x == y
  {
    if x.block < y.block { BeforeMonotone(ram, x.block, y.block); }
    if y.block < x.block { BeforeMonotone(ram, y.block, x.block); }
  }

  lemma IndexNext(ram: Ram, x: Pos)
    requires NoEmptyBlock(ram) && InRam(ram, x)
    ensures InRam(ram, NextPos(ram, x)) && Index(ram, x) < Before(ram, |ram|)
    ensures Index(ram, NextPos(ram, x)) == if Index(ram, x) + 1 == Before(ram, |ram|) then 0 else Index(ram, x) + 1
  {
    BeforeMonotone(ram, x.block, |ram|);
    BeforeMonotone(ram, x.block + 1, |ram|);
    if x.block + 1 < |ram| { BeforeMonotone(ram, x.block + 1, |ram|); }
  }

  /** No page that the scan has passed is dirty. */
  ghost predicate CleanTo(ram: Ram, dirty: set<Pos>, from: Pos, at: Pos, wrapped: bool)
    requires InRam(ram, from) && InRam(ram, at)
  {
    forall x :: InRam(ram, x) && Passed(Index(ram, from), Index(ram, at), wrapped, Index(ram, x)) ==> x !in dirty
  }

  ghost predicate OnTheWay(ram: Ram, from: Pos, at: Pos, wrapped: bool)
    requires InRam(ram, from) && InRam(ram, at)
  {
    if wrapped then Index(ram, at) < Index(ram, from) else Index(ram, from) <= Index(ram, at)
  }

  ghost function Ahead(ram: Ram, from: Pos, at: Pos, wrapped: bool): int
    requires InRam(ram, from) && InRam(ram, at)
  {
    if wrapped then Index(ram, from) - Index(ram, at) else Before(ram, |ram|) + Index(ram, from) - Index(ram, at)
  }

  ghost function Wraps(ram: Ram, at: Pos, wrapped: bool): bool
    requires InRam(ram, at)
  {
    wrapped || Index(ram, at) + 1 == Before(ram, |ram|)
  }

  /** One step of the scan; back at its start it has seen every page. */
  lemma ScanStep(ram: Ram, dirty: set<Pos>, from: Pos, at: Pos, wrapped: bool)
    requires NoEmptyBlock(ram) && InRam(ram, from) && InRam(ram, at) && CleanTo(ram, dirty, from, at, wrapped)
             && OnTheWay(ram, from, at, wrapped)
    requires at !in dirty
    ensures var at', wrapped' := NextPos(ram, at), Wraps(ram, at, wrapped);
            && InRam(ram, at') && CleanTo(ram, dirty, from, at', wrapped')
            && (if at' == from then forall x :: InRam(ram, x) ==> x !in dirty else OnTheWay(ram, from, at', wrapped'))
            && 0 <= Ahead(ram, from, at', wrapped') < Ahead(ram, from, at, wrapped)
  {
    hide NextPos, Index;
    IndexNext(ram, from);
    IndexNext(ram, at);
    var n, at', wrapped' := Before(ram, |ram|), NextPos(ram, at), Wraps(ram, at, wrapped);
    forall x | InRam(ram, x)
      ensures Passed(Index(ram, from), Index(ram, at'), wrapped', Index(ram, x)) ==> x !in dirty
      ensures Index(ram, at') == Index(ram, from) ==> x !in dirty
    {
      IndexNext(ram, x);
      PassedNext(Index(ram, from), Index(ram, at), wrapped, n, Index(ram, x));
      if Index(ram, x) == Index(ram, at) { IndexInjective(ram, x, at); }
    }
    PassedNext(Index(ram, from), Index(ram, at), wrapped, n, Index(ram, from));
    if Index(ram, at') == Index(ram, from) { IndexInjective(ram, at', from); }
  }

  // What is counted.

  /** The data bytes of a record: one for a page whose bytes are all equal, the whole page otherwise. */
  function DataBytes(rec: Record): nat {
    if !rec.PageRecord? then 0 else if forall i ::
        0 <= i < |rec.page| ==> rec.page[i] == rec.page[0] then 1 else |rec.page|
  }

  function AllDataBytes(recs: seq<Record>): nat {
    if recs == [] then 0 else AllDataBytes(recs[..|recs| - 1]) + DataBytes(recs[|recs| - 1])
  }

  lemma DataBytesSnoc(recs: seq<Record>, rec: Record)
    ensures AllDataBytes(recs + [rec]) == AllDataBytes(recs) + DataBytes(rec)
  {
    assert (recs + [rec])[..|recs|] == recs;
  }

  // The sender.

  class RamSender {
    const pageSize: nat
    var ram: Ram
    var dirty: set<Pos>
    var lastBlock: Option<nat>
    var lastPage: nat
    var stream: seq<Byte>
    var bytesTransferred: nat
    ghost var sent: seq<Record>

    ghost function Last(): Option<Pos>
      reads this
    {
      if lastBlock.Some? then Some(Pos(lastBlock.value, lastPage)) else None
    }

    ghost function State(): Source reads this { Source(ram, dirty, Last(), sent) }

    /** The counter is the number of data bytes in the records sent. */
    ghost predicate Counted() reads this { bytesTransferred == AllDataBytes(sent) }

    ghost predicate Valid() reads this {
      && PageSizeOk(pageSize) && pageSize > 0 && RamOk(pageSize, ram)
      && (forall x :: x in dirty ==> InRam(ram, x))
      && (Last().Some? ==> InRam(ram, Last().value)) && (lastBlock.None? ==> lastPage == 0)
      && AllEncodable(pageSize, sent) && stream == Stream(pageSize, sent)
    }

    constructor (pageSize: nat, ram: Ram)
      requires PageSizeOk(pageSize) && RamOk(pageSize, ram)
      ensures Valid() && this.pageSize == pageSize && this.ram == ram && dirty == {} && lastBlock == None && sent == []
    {
      this.pageSize, this.ram, dirty, lastBlock, lastPage := pageSize, ram, {}, None, 0;
      stream, bytesTransferred, sent := [], 0, [];
    }

    /** The guest stores to a page; dirty tracking notices. */
    method GuestWrite(x: Pos, page: Page)
      requires Valid() && InRam(ram, x) && |page| == pageSize
      modifies `ram, `dirty
      ensures Valid() && State() == Next(pageSize, old(State()), Writes(x, page))
    {
      StoreOk(pageSize, ram, x, page);
      ram := Store(ram, x, page);
      dirty := dirty + {x};
    }

    /** The bytes of one page, in its short or its long form. */
    method PutPage(x: Pos, cont: bool) returns (bytesSent: nat)
      requires Valid() && InRam(ram, x) && cont == (lastBlock == Some(x.block))
      modifies `stream
      ensures var rec := RecordFor(pageSize, State(), x);
              Encodable(pageSize, rec) && stream == old(stream) + Encode(pageSize, rec)
      ensures bytesSent > 0 && bytesSent == DataBytes(RecordFor(pageSize, State(), x))
    {
      hide Put, Power, Stream, Uniform, RamOk, Times;
      ghost var rec := RecordFor(pageSize, State(), x);
      RecordEncodable(pageSize, State(), x);
      var block := ram[x.block];
      var p := block.pages[x.page];
      var dup := IsDupPage(p, p[0]);
      UniformIff(p);
      var flags := (if cont then CONTINUE else 0) + (if dup then COMPRESS else PAGE);
      stream := stream + Put(8, Times(x.page, pageSize) + flags);
      if !cont {
        stream := stream + [|block.id| as Byte];
        stream := stream + block.id;
      }
      if dup {
        stream := stream + [p[0]];
        bytesSent := 1;
      } else {
        stream := stream + p;
        bytesSent := pageSize;
      }
      ghost var idField, data := if cont then [] else [|block.id| as Byte] + block.id, if dup then [p[0]] else p;
      assert stream == old(stream) + (Put(8, Times(x.page, pageSize) + flags) + idField + data);
    }

    /** The next dirty page in round-robin order, if there is any. */
    method RamSaveBlock() returns (bytesSent: nat, ghost at: Pos)
      requires Valid() && (lastBlock.None? ==> Pos(0, 0) in dirty)
      modifies this
      ensures Valid() && bytesTransferred == old(bytesTransferred)
      ensures bytesSent == 0 <==> old(dirty) == {}
      ensures bytesSent == 0 ==> State() == old(State())
      ensures AllDataBytes(sent) == AllDataBytes(old(sent)) + bytesSent
      ensures bytesSent > 0 ==>
              Enabled(pageSize, old(State()), Sends(at)) && State() == Next(pageSize, old(State()), Sends(at))
      ensures bytesSent > 0 ==>
              exists wrapped ::
              OnTheWay(ram, StartOf(old(Last())), at, wrapped)
              && CleanTo(ram, old(dirty), StartOf(old(Last())), at, wrapped)
      ensures ram == old(ram)
    {
      var found, x := FindDirty();
      at := x;
      if !found {
        EmptySet(ram, dirty);
        return 0, at;
      }
      bytesSent := SendPage(x);
    }

    /** The do-while loop of the scan, from the page sent last until it is back there. */
    method FindDirty() returns (found: bool, x: Pos)
      requires Valid() && (lastBlock.None? ==> Pos(0, 0) in dirty)
      ensures InRam(ram, StartOf(Last()))
      ensures found ==>
              InRam(ram, x) && x in dirty && exists wrapped ::
              OnTheWay(ram, StartOf(Last()), x, wrapped) && CleanTo(ram, dirty, StartOf(Last()), x, wrapped)
      ensures !found ==> forall y :: InRam(ram, y) ==> y !in dirty
    {
      hide RamOk, Stream, Index, NextPos, OnTheWay, CleanTo, Ahead, Wraps, Passed;
      RamHasPages(pageSize, ram);
      x := Pos(if lastBlock.Some? then lastBlock.value else 0, lastPage);
      var start := x;
      ghost var wrapped := false;
      ScanStart(ram, dirty, start);
      found := false;
      var done := false;
      while !done
        invariant InRam(ram, x) && !found
        invariant !done ==> CleanTo(ram, dirty, start, x, wrapped) && OnTheWay(ram, start, x, wrapped)
        invariant done ==> forall y :: InRam(ram, y) ==> y !in dirty
        decreases !done, Ahead(ram, start, x, wrapped)
      {
        if x in dirty {
          found := true;
          return;
        }
        ScanStep(ram, dirty, start, x, wrapped);
        wrapped := Wraps(ram, x, wrapped);
        x := NextPos(ram, x);
        done := x == start;
      }
    }

    method SendPage(x: Pos) returns (bytesSent: nat)
      requires Valid() && InRam(ram, x) && x in dirty
      modifies `stream, `dirty, `lastBlock, `lastPage, `sent
      ensures Valid() && bytesSent > 0 && State() == Next(pageSize, old(State()), Sends(x))
      ensures AllDataBytes(sent) == AllDataBytes(old(sent)) + bytesSent
    {
      hide RamOk, Encode, Encodable, RecordFor, DataBytes;
      ghost var rec := RecordFor(pageSize, State(), x);
      bytesSent := PutPage(x, lastBlock == Some(x.block));
      StreamSnoc(pageSize, sent, rec);
      DataBytesSnoc(sent, rec);
      sent := sent + [rec];
      dirty := dirty - {x};
      lastBlock, lastPage := Some(x.block), x.page;
    }

    /** The count that tells how much is left. */
    method RamSaveRemaining() returns (count: nat)
      requires Valid()
      ensures count == |dirty|
    {
      hide RamOk, Stream;
      count := 0;
      ghost var seen: set<Pos> := {};
      for b := 0 to |ram|
        invariant count == |seen| && forall x :: x in seen <==> x in dirty && x.block < b
      {
        for i := 0 to |ram[b].pages|
          invariant count == |seen| && forall x ::
                    x in seen <==> x in dirty && (x.block < b || (x.block == b && x.page < i))
        {
          if Pos(b, i) in dirty {
            count := count + 1;
            seen := seen + {Pos(b, i)};
          }
        }
      }
      assert seen == dirty;
    }

    // Stages.

    /** Stage 1 begins: every page is marked dirty and the list of blocks is written. */
    method Begin()
      requires Valid() && sent == []
      modifies this
      ensures Valid() && ram == old(ram) && Starts(pageSize, State()) && Counted()
    {
      hide RamOk, Encode, Encodable;
      bytesTransferred, lastBlock, lastPage := 0, None, 0;
      MarkAll();
      PutHeader();
      DataBytesSnoc([], sent[0]);
      assert [] + [sent[0]] == sent;
    }

    method MarkAll()
      requires Valid()
      modifies `dirty
      ensures Valid() && AllPages(ram, dirty)
    {
      hide RamOk, Stream;
      for b := 0 to |ram|
        invariant Valid() && forall x :: InRam(ram, x) && x.block < b ==> x in dirty
      {
        for i := 0 to |ram[b].pages|
          invariant Valid() && forall x :: InRam(ram, x) && (x.block < b || (x.block == b && x.page < i)) ==> x in dirty
        {
          if Pos(b, i) !in dirty { dirty := dirty + {Pos(b, i)}; }
        }
      }
    }

    method PutHeader()
      requires Valid() && sent == []
      modifies `stream, `sent
      ensures Valid() && sent == [Header(Descriptions(pageSize, ram))]
    {
      hide RamOk, Put, Power, Times, TotalLength, Encodable, Encode, BlockList;
      ghost var ds := Descriptions(pageSize, ram);
      HeaderEncodable(pageSize, ram);
      ShortIds(pageSize, ram);
      var total := RamBytesTotal();
      stream := stream + Put(8, total + MEM_SIZE);
      PutBlocks();
      StreamSnoc(pageSize, [], Header(ds));
      EncodeHeader(pageSize, ds);
      sent := [Header(ds)];
      assert [] + [Header(ds)] == sent;
    }

    method PutBlocks()
      requires forall b :: 0 <= b < |ram| ==> |ram[b].id| < 256
      modifies `stream
      ensures stream == old(stream) + BlockList(Descriptions(pageSize, ram))
    {
      hide Put, Times, IdField;
      ghost var ds := Descriptions(pageSize, ram);
      for b := 0 to |ram|
        invariant stream == old(stream) + BlockList(ds[..b])
      {
        ghost var d := ds[b];
        ListSnoc(ds[..b], d);
        IdBytes(d.0);
        stream := stream + [|ram[b].id| as Byte];
        stream := stream + ram[b].id;
        stream := stream + Put(8, Times(|ram[b].pages|, pageSize));
        assert ds[..b + 1] == ds[..b] + [d];
        assert stream == old(stream) + (BlockList(ds[..b]) + (IdField(d.0) + Put(8, d.1)));
      }
      assert ds[..|ram|] == ds;
    }

    method RamBytesTotal() returns (total: nat)
      ensures total == TotalLength(Descriptions(pageSize, ram))
    {
      hide Times;
      ghost var ds := Descriptions(pageSize, ram);
      total := 0;
      for b := 0 to |ram|
        invariant total + TotalLength(ds[b..]) == TotalLength(ds)
      {
        assert ds[b..][1..] == ds[b + 1..];
        total := total + Times(|ram[b].pages|, pageSize);
      }
    }

    method PutEnd()
      requires Valid()
      modifies `stream, `sent
      ensures Valid() && State() == Next(pageSize, old(State()), Ends)
      ensures AllDataBytes(sent) == AllDataBytes(old(sent))
    {
      hide RamOk, Put;
      DataBytesSnoc(sent, EndOfSection);
      stream := stream + Put(8, EOS);
      StreamSnoc(pageSize, sent, EndOfSection);
      sent := sent + [EndOfSection];
    }

    /** One stage; `budget` is how many pages the rate limit lets through before the forced flush. */
    method RamSaveLive(stage: int, budget: nat) returns (ghost es: seq<Event>)
      requires Valid() && (stage == 1 ==> sent == []) && (lastBlock.None? && stage != 1 ==> AllPages(ram, dirty))
      modifies this
      ensures Valid() && ram == old(ram)
      ensures stage < 0 ==> State() == old(State())
      ensures stage == 1 ==>
              exists first :: Starts(pageSize, first) && first.ram == ram && Run(pageSize, first, es, State())
                  && |es| == 1 + PagesSent(|first.dirty|, budget, false)
      ensures stage >= 0 && stage != 1 ==>
              Run(pageSize, old(State()), es, State()) && |es| == 1 + PagesSent(|old(dirty)|, budget, stage == 3)
      ensures stage == 1 || (stage >= 0 && old(Counted())) ==> Counted()
      ensures stage >= 0 ==> sent != [] && sent[|sent| - 1] == EndOfSection
      ensures stage == 3 ==> dirty == {}
      ensures lastBlock.None? && stage >= 0 ==> AllPages(ram, dirty)
    {
      hide RamOk, Next, Encodable, Stream;
      es := [];
      if stage < 0 { return; }
      if stage == 1 { Begin(); }
      ghost var first := State();
      es := SendPages(budget, stage == 3);
      ghost var before := State();
      PutEnd();
      RunSnoc(pageSize, first, es, before, Ends);
      es := es + [Ends];
      EndKeeps(pageSize, before);
    }

    /** How many of the dirty pages a stage sends. */
    static function PagesSent(dirtyPages: nat, budget: nat, flush: bool): nat {
      if flush || dirtyPages <= budget then dirtyPages else budget
    }

    /** Pages go out until none is dirty or, before the last stage, the rate limit is reached. */
    method SendPages(budget: nat, flush: bool) returns (ghost es: seq<Event>)
      requires Valid() && (lastBlock.None? ==> AllPages(ram, dirty))
      modifies this
      ensures Valid() && ram == old(ram) && Run(pageSize, old(State()), es, State()) && (flush ==> dirty == {})
      ensures lastBlock.None? ==> AllPages(ram, dirty)
      ensures |es| == PagesSent(|old(dirty)|, budget, flush) && |dirty| == |old(dirty)| - |es|
      ensures old(Counted()) ==> Counted()
    {
      hide RamOk, Next, Encodable, Stream, AllEncodable, AllDataBytes;
      es := [];
      var k := 0;
      var more := true;
      while more && (flush || k < budget)
        invariant Valid() && ram == old(ram) && (lastBlock.None? ==> AllPages(ram, dirty))
                  && Run(pageSize, old(State()), es, State())
        invariant !more ==> dirty == {}
        invariant |dirty| == |old(dirty)| - |es| && (more ==> k == |es|) && (old(Counted()) ==> Counted())
        invariant !flush ==> |es| <= budget
        decreases more, |dirty|
      {
        ghost var before := State();
        FirstIsDirty(this);
        ghost var at;
        var bytesSent;
        bytesSent, at := RamSaveBlock();
        bytesTransferred := bytesTransferred + bytesSent;
        k := k + 1;
        if bytesSent == 0 {
          more := false;
        } else {
          RunSnoc(pageSize, old(State()), es, before, Sends(at));
          SendShrinks(pageSize, before, at);
          es := es + [Sends(at)];
        }
      }
    }
  }

  lemma FirstIsDirty(s: RamSender)
    requires s.Valid() && (s.lastBlock.None? ==> AllPages(s.ram, s.dirty))
    ensures s.lastBlock.None? ==> Pos(0, 0) in s.dirty
  {
    RamHasPages(s.pageSize, s.ram);
  }

  lemma SendShrinks(pageSize: nat, s: Source, x: Pos)
    requires Enabled(pageSize, s, Sends(x))
    ensures |Next(pageSize, s, Sends(x)).dirty| == |s.dirty| - 1 && Next(pageSize, s, Sends(x)).last.Some?
  {
    assert s.dirty == (s.dirty - {x}) + {x};
  }

  lemma EndKeeps(pageSize: nat, s: Source)
    ensures var z := Next(pageSize, s, Ends);
            z.dirty == s.dirty && z.last == s.last && z.ram == s.ram && z.sent != []
                && z.sent[|z.sent| - 1] == EndOfSection
  {
  }

  lemma {:induction false} RunSnoc(pageSize: nat, s: Source, es: seq<Event>, z: Source, e: Event)
    requires Run(pageSize, s, es, z) && Enabled(pageSize, z, e)
    ensures Run(pageSize, s, es + [e], Next(pageSize, z, e))
    decreases |es|
  {
    hide Next, Enabled;
    if es == [] {
      assert (es + [e])[1..] == [];
    } else {
      RunSnoc(pageSize, Next(pageSize, s, es[0]), es[1..], z, e);
      assert (es + [e])[1..] == es[1..] + [e];
    }
  }

  lemma {:induction false} ListSnoc(a: seq<(seq<Byte>, nat)>, d: (seq<Byte>, nat))
    requires (forall i :: 0 <= i < |a| ==> |a[i].0| < 256) && |d.0| < 256
    ensures BlockList(a + [d]) == BlockList(a) + (IdField(d.0) + Put(8, d.1))
  {
    hide Put, IdField;
    if a == [] {
      assert a + [d] == [d] && [d][1..] == [];
    } else {
      ListSnoc(a[1..], d);
      assert (a + [d])[1..] == a[1..] + [d];
    }
  }

  lemma IdBytes(id: seq<Byte>)
    requires |id| < 256
    ensures IdField(id) == [|id| as Byte] + id
  {
  }

  lemma ShortIds(pageSize: nat, ram: Ram)
    requires RamOk(pageSize, ram)
    ensures forall b :: 0 <= b < |ram| ==> |ram[b].id| < 256
  {
    forall b | 0 <= b < |ram| ensures |ram[b].id| < 256 { assert BlockOk(pageSize, ram[b]); }
  }

  lemma EncodeHeader(pageSize: nat, ds: seq<(seq<Byte>, nat)>)
    requires pageSize > 0 && Encodable(pageSize, Header(ds))
    ensures Encode(pageSize, Header(ds)) == Put(8, TotalLength(ds) + MEM_SIZE) + BlockList(ds)
  {
  }

  /** Where a scan begins. */
  function StartOf(last: Option<Pos>): Pos { if last.Some? then last.value else Pos(0, 0) }

  lemma EmptySet(ram: Ram, dirty: set<Pos>)
    requires (forall x :: x in dirty ==> InRam(ram, x)) && forall y :: InRam(ram, y) ==> y !in dirty
    ensures dirty == {}
  {
  }

  lemma RamHasPages(pageSize: nat, ram: Ram)
    requires RamOk(pageSize, ram)
    ensures NoEmptyBlock(ram)
  {
    forall b | 0 <= b < |ram| ensures |ram[b].pages| > 0 { assert BlockOk(pageSize, ram[b]); }
  }

  lemma ScanStart(ram: Ram, dirty: set<Pos>, from: Pos)
    requires InRam(ram, from)
    ensures CleanTo(ram, dirty, from, from, false) && OnTheWay(ram, from, from, false)
  {
  }

  lemma UniformIff(p: Page)
    requires |p| > 0
    ensures Uniform(p) <==> forall i :: 0 <= i < |p| ==> p[i] == p[0]
  {
  }

  lemma RecordEncodable(pageSize: nat, s: Source, x: Pos)
    requires PageSizeOk(pageSize) && pageSize > 0 && RamOk(pageSize, s.ram) && InRam(s.ram, x)
    ensures Encodable(pageSize, RecordFor(pageSize, s, x)) && |PageAt(s.ram, x)| == pageSize && pageSize % 4 == 0
            && |s.ram[x.block].id| < 256
  {
    hide Times, Power, TotalLength;
    OffsetIndex(pageSize, x.page);
    assert BlockOk(pageSize, s.ram[x.block]);
    OffsetBelow(pageSize, x.page, |s.ram[x.block].pages|);
  }

  // The receiver.

  /** The destination; `block` is the static variable of host_from_stream_offset. */
  class RamReceiver {
    const pageSize: nat
    var ram: Ram
    var block: Option<nat>
    var input: seq<Byte>

    ghost function State(): Recv reads this { Recv(ram, block) }

    constructor (pageSize: nat, ram: Ram)
      ensures this.pageSize == pageSize && this.ram == ram && block == None && input == []
    {
      this.pageSize, this.ram, block, input := pageSize, ram, None, [];
    }

    /** A short read leaves the stream in error. */
    method Read(n: nat) returns (ok: bool, data: seq<Byte>)
      modifies `input
      ensures if ok then GetBytes(old(input), n).Ok? else GetBytes(old(input), n) == Eio
      ensures ok ==> GetBytes(old(input), n) == Ok((data, input))
    {
      data := [];
      if |input| < n { return false, []; }
      data, input := input[..n], input[n..];
      ok := true;
    }

    method ReadId() returns (ok: bool, id: seq<Byte>)
      modifies `input
      ensures if ok then GetId(old(input)).Ok? else GetId(old(input)) == Eio
      ensures ok ==> GetId(old(input)) == Ok((id, input))
    {
      var len;
      ok, len := Read(1);
      id := [];
      if ok { ok, id := Read(len[0] as nat); }
    }

    method LookUp(id: seq<Byte>) returns (b: nat)
      ensures b == FindBlock(ram, id)
    {
      b := 0;
      while b < |ram| && ram[b].id != id
        invariant b <= |ram| && forall c :: 0 <= c < b ==> ram[c].id != id
      {
        b := b + 1;
      }
      FoundFirst(ram, id, b);
    }

    /** The check of the block list that opens a migration. */
    method SynchronizeBlocks(total: nat) returns (code: Load<()>)
      requires total < Power(8)
      modifies `input
      ensures code.Ok? <==> SyncBlocks(pageSize, ram, total, old(input)).Ok?
      ensures code.Ok? ==> SyncBlocks(pageSize, ram, total, old(input)) == Ok(input)
      ensures !code.Ok? ==> code == SyncBlocks(pageSize, ram, total, old(input)).PropagateFailure()
    {
      hide Power, Get, Times, GetId, GetBytes, FindBlock;
      var left: nat := total;
      ghost var whole := SyncBlocks(pageSize, ram, total, input);
      while left != 0
        invariant whole == SyncBlocks(pageSize, ram, left, input) && left < Power(8)
        decreases |input|
      {
        var ok, id := ReadId();
        if !ok { return Eio; }
        var word;
        ok, word := Read(8);
        if !ok { return Eio; }
        var b := LookUp(id);
        if b == |ram| || Times(|ram[b].pages|, pageSize) != Get(word) { return Einval; }
        left := (left + Power(8) - Get(word) % Power(8)) % Power(8);
      }
      return Ok(());
    }

    /** The block of a record: named in the stream, or the one before. */
    method HostFromStreamOffset(flags: nat) returns (ok: bool, host: Option<nat>)
      modifies `input
      ensures if ok then Resolve(State(), flags, old(input)).Ok? else Resolve(State(), flags, old(input)) == Eio
      ensures ok ==> Resolve(State(), flags, old(input)) == Ok((host, input))
    {
      hide FindBlock, GetId;
      ok, host := true, block;
      if !Has(flags, CONTINUE) {
        var id;
        ok, id := ReadId();
        if ok {
          var b := LookUp(id);
          host := if b < |ram| then Some(b) else None;
        }
      }
    }

    method Memset(ch: Byte) returns (page: Page)
      ensures page == Filled(pageSize, ch)
    {
      page := [];
      while |page| < pageSize
        invariant |page| <= pageSize && forall i :: 0 <= i < |page| ==> page[i] == ch
      {
        page := page + [ch];
      }
    }

    method LoadPage(flags: nat, index: nat) returns (code: Load<()>)
      modifies `input, `ram, `block
      ensures code.Ok? <==> ReceivePage(pageSize, old(State()), flags, index, old(input)).Ok?
      ensures code.Ok? ==> ReceivePage(pageSize, old(State()), flags, index, old(input)) == Ok((State(), input))
      ensures !code.Ok? ==> code == ReceivePage(pageSize, old(State()), flags, index, old(input)).PropagateFailure()
    {
      hide Resolve, GetBytes, Filled, Store, Has;
      var ok, host := HostFromStreamOffset(flags);
      if !ok { return Eio; }
      if Has(flags, COMPRESS) && host.None? { return Einval; }
      if host.None? || !InRam(ram, Pos(host.value, index)) { return Crash; }
      var data;
      ok, data := Read(if Has(flags, COMPRESS) then 1 else pageSize);
      if !ok { return Eio; }
      if Has(flags, COMPRESS) { data := Memset(data[0]); }
      ram := Store(ram, Pos(host.value, index), data);
      block := host;
      return Ok(());
    }

    method LoadRecord() returns (code: Load<bool>)
      requires pageSize > 0
      modifies `input, `ram, `block
      ensures code.Ok? <==> Turn(pageSize, old(State()), old(input)).Ok?
      ensures code.Ok? ==> Turn(pageSize, old(State()), old(input)) == Ok((State(), input, code.value))
      ensures !code.Ok? ==> code == Turn(pageSize, old(State()), old(input)).PropagateFailure()
    {
      hide GetBytes, Get, Has, SyncBlocks, ReceivePage, FlagsOf, IndexIn, Times, Power;
      var ok, word := Read(8);
      if !ok { return Eio; }
      var flags, index := FlagsOf(pageSize, Get(word)), IndexIn(pageSize, Get(word));
      if Has(flags, MEM_SIZE) {
        WordBelow(pageSize, word);
        var code1 := SynchronizeBlocks(Times(index, pageSize));
        if !code1.Ok? { return code1.PropagateFailure(); }
      }
      if Has(flags, COMPRESS) || Has(flags, PAGE) {
        var code2 := LoadPage(flags, index);
        if !code2.Ok? { return code2.PropagateFailure(); }
      }
      return Ok(Has(flags, EOS));
    }

    /** One section.  Streams of version 3, which name no blocks, are not modelled. */
    method RamLoad(version: int) returns (code: Load<()>)
      requires pageSize > 0 && version != 3
      modifies `input, `ram, `block
      ensures version < 3 || version > 4 ==> code == Einval && State() == old(State()) && input == old(input)
      ensures version == 4 ==>
                var x := MigrationRam.RamLoad(pageSize, old(State()), old(input));
                (code.Ok? <==> x.Ok?) && (code.Ok? ==> x == Ok((State(), input)))
                    && (!code.Ok? ==> code == x.PropagateFailure())
    {
      hide Turn;
      if version < 3 || version > 4 { return Einval; }
      ghost var whole := MigrationRam.RamLoad(pageSize, State(), input);
      while true
        invariant whole == MigrationRam.RamLoad(pageSize, State(), input)
        decreases |input|
      {
        var eos := LoadRecord();
        if !eos.Ok? { return eos.PropagateFailure(); }
        if eos.value { return Ok(()); }
      }
    }
  }

  lemma {:induction false} FoundFirst(ram: Ram, id: seq<Byte>, b: nat)
    requires b <= |ram| && (forall c :: 0 <= c < b ==> ram[c].id != id) && (b < |ram| ==> ram[b].id == id)
    ensures b == FindBlock(ram, id)
  {
  }

  lemma WordBelow(pageSize: nat, word: seq<Byte>)
    requires pageSize > 0 && |word| == 8
    ensures Times(IndexIn(pageSize, Get(word)), pageSize) < Power(8)
  {
    hide Power;
    GetBelow(word);
    assert Get(word) / pageSize * pageSize <= Get(word);
  }

  lemma {:induction false} GetBelow(s: seq<Byte>)
    ensures Get(s) < Power(|s|)
  {
    if s != [] { GetBelow(s[..|s| - 1]); }
  }
}
