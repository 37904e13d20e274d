/**
 Live migration of RAM.  Guest writes interleave with the sender until the last stage; when that
 stage has sent every dirty page, loading the stream rebuilds the memory exactly.
 */
module MigrationRuns {
  import opened Arithmetic
  import opened Basics
  import opened MigrationStream
  import opened MigrationRam
  import opened MigrationRoundTrip

  ghost predicate BlockOk(pageSize: nat, b: Block) {
    && |b.id| < 256 && |b.pages| > 0 && (forall i :: 0 <= i < |b.pages| ==> |b.pages[i]| == pageSize)
    && Times(|b.pages|, pageSize) + CONTINUE + PAGE < Power(8)
  }

  ghost predicate RamOk(pageSize: nat, ram: Ram) {
    && |ram| > 0 && (forall b :: 0 <= b < |ram| ==> BlockOk(pageSize, ram[b]))
    && (forall a, b :: 0 <= a < b < |ram| ==> ram[a].id != ram[b].id)
    && TotalLength(Descriptions(pageSize, ram)) + MEM_SIZE < Power(8)
  }

  function Descriptions(pageSize: nat, ram: Ram): seq<(seq<Byte>, nat)> {
    seq(|ram|, b requires 0 <= b < |ram| => (ram[b].id, Times(|ram[b].pages|, pageSize)))
  }

  /** Every block of the source is found in the destination by its id, with the same length, in any order. */
  ghost predicate Hosts(ram: Ram, copy: Ram) {
    forall b :: 0 <= b < |ram| ==> Hosted(ram[b], copy)
  }

  ghost predicate Hosted(block: Block, copy: Ram) {
    var b := FindBlock(copy, block.id);
    b < |copy| && |copy[b].pages| == |block.pages|
  }

  /** Where the destination keeps a page of the source. */
  ghost function Place(ram: Ram, copy: Ram, x: Pos): Pos
    requires x.block < |ram|
  {
    Pos(FindBlock(copy, ram[x.block].id), x.page)
  }

  ghost predicate SameBlocks(a: Ram, b: Ram) {
    |a| == |b| && forall i :: 0 <= i < |a| ==> a[i].id == b[i].id && |a[i].pages| == |b[i].pages|
  }

  /** A block of the destination that no block of the source is found in. */
  ghost predicate Foreign(ram: Ram, copy: Ram, block: nat) {
    forall b :: 0 <= b < |ram| ==> FindBlock(copy, ram[b].id) != block
  }

  /** The destination keeps its list of blocks, and the contents of its other blocks. */
  ghost predicate Untouched(ram: Ram, before: Ram, after: Ram) {
    && SameBlocks(before, after)
    && forall x :: InRam(before, x) && Foreign(ram, before, x.block) ==> PageAt(after, x) == PageAt(before, x)
  }

  ghost predicate AllPages(ram: Ram, dirty: set<Pos>) { forall x :: InRam(ram, x) ==> x in dirty }

  /** The source: its memory, its dirty pages, the page sent last, and what it has written. */
  datatype Source = Source(ram: Ram, dirty: set<Pos>, last: Option<Pos>, sent: seq<Record>)

  function RecordFor(pageSize: nat, s: Source, x: Pos): Record
    requires InRam(s.ram, x)
  {
    PageRecord(Times(x.page, pageSize), if s.last.Some? && s.last.value.block == x.block then None
        else Some(s.ram[x.block].id), PageAt(s.ram, x))
  }

  datatype Event = Sends(at: Pos) | Finds | Ends | Writes(at: Pos, page: Page)

  ghost predicate Enabled(pageSize: nat, s: Source, e: Event) {
    match e
    case Sends(x) => InRam(s.ram, x) && x in s.dirty
    case Finds => s.dirty == {}
    case Ends => true
    case Writes(x, page) => InRam(s.ram, x) && |page| == pageSize
  }

  /** A dirty page is sent, no dirty page is found, a stage ends, or the guest writes. */
  ghost function Next(pageSize: nat, s: Source, e: Event): Source
    requires Enabled(pageSize, s, e)
  {
    match e
    case Sends(x) => s.(dirty := s.dirty - {x}, last := Some(x), sent := s.sent + [RecordFor(pageSize, s, x)])
    case Finds => s
    case Ends => s.(sent := s.sent + [EndOfSection])
    case Writes(x, page) => s.(ram := Store(s.ram, x, page), dirty := s.dirty + {x})
  }

  /** Stage 1 begins: every page is dirty, and the list of blocks is sent. */
  ghost predicate Starts(pageSize: nat, s: Source) {
    && RamOk(pageSize, s.ram) && AllPages(s.ram, s.dirty) && (forall x :: x in s.dirty ==> InRam(s.ram, x))
    && s.last == None && s.sent == [Header(Descriptions(pageSize, s.ram))]
  }

  /** Every page is dirty, or what has been sent says the same of it as the memory does. */
  ghost predicate UpToDate(ram: Ram, dirty: set<Pos>, copy: Ram)
    requires Hosts(ram, copy)
  {
    forall x :: InRam(ram, x) && x !in dirty ==> Holds(ram, copy, x)
  }

  ghost predicate Holds(ram: Ram, copy: Ram, x: Pos)
    requires Hosts(ram, copy) && InRam(ram, x)
  {
    assert Hosted(ram[x.block], copy);
    PageAt(copy, Place(ram, copy, x)) == PageAt(ram, x)
  }

  /** A record without an id continues in the block of the last page sent. */
  ghost predicate Resumes(s: Source, copy: Recv) {
    s.last.Some? ==> InRam(s.ram, s.last.value) && copy.current == Some(Place(s.ram, copy.ram, s.last.value).block)
  }

  ghost predicate Follows(pageSize: nat, s: Source, copy: Recv) {
    && RamOk(pageSize, s.ram) && Hosts(s.ram, copy.ram)
    && (forall x :: x in s.dirty ==> InRam(s.ram, x))
    && (s.last.None? ==> AllPages(s.ram, s.dirty))
    && Resumes(s, copy)
    && UpToDate(s.ram, s.dirty, copy.ram)
  }

  /** The invariant: the stream so far can be loaded, and loading it follows the source. */
  ghost predicate Sound(pageSize: nat, s: Source, start: Recv)
    requires pageSize > 0
  {
    && AllEncodable(pageSize, s.sent) && AllAcceptable(pageSize, start, s.sent)
    && Follows(pageSize, s, Meaning(pageSize, start, s.sent))
    && Untouched(s.ram, start.ram, Meaning(pageSize, start, s.sent).ram)
  }

  // Records.

  /** The search looks at the ids only. */
  lemma FindSame(a: Ram, b: Ram, id: seq<Byte>)
    requires SameBlocks(a, b)
    ensures FindBlock(a, id) == FindBlock(b, id)
  {
  }

  lemma {:induction false} FindUnique(ram: Ram, b: nat)
    requires b < |ram| && forall i, j :: 0 <= i < j < |ram| ==> ram[i].id != ram[j].id
    ensures FindBlock(ram, ram[b].id) == b
  {
    if b > 0 { FindUnique(ram[1..], b - 1); }
  }

  lemma SelfHosts(pageSize: nat, ram: Ram)
    requires RamOk(pageSize, ram)
    ensures Hosts(ram, ram)
  {
    hide FindBlock, BlockOk, TotalLength, Power;
    forall b | 0 <= b < |ram| ensures Hosted(ram[b], ram) { FindUnique(ram, b); }
  }

  lemma HostedIn(ram: Ram, copy: Ram, x: Pos)
    requires Hosts(ram, copy) && InRam(ram, x)
    ensures InRam(copy, Place(ram, copy, x)) && copy[Place(ram, copy, x).block].id == ram[x.block].id
  {
    assert Hosted(ram[x.block], copy);
  }

  lemma OffsetIndex(pageSize: nat, page: nat)
    requires pageSize > 0
    ensures Times(page, pageSize) % pageSize == 0 && Times(page, pageSize) / pageSize == page
  {
    MultipleMod(page, pageSize);
  }

  lemma OffsetBelow(pageSize: nat, page: nat, n: nat)
    requires page < n
    ensures Times(page, pageSize) <= Times(n, pageSize)
  {
    assert (n - page) * pageSize >= 0;
  }

  /** A page record names the sender's block, by its id or by continuing. */
  lemma RecordGood(pageSize: nat, s: Source, copy: Recv, x: Pos)
    requires PageSizeOk(pageSize) && pageSize > 0 && Follows(pageSize, s, copy) && InRam(s.ram, x)
    ensures var rec := RecordFor(pageSize, s, x);
            var at := Place(s.ram, copy.ram, x);
            && Encodable(pageSize, rec) && Acceptable(pageSize, copy, rec) && InRam(copy.ram, at)
            && Received(pageSize, copy, rec) == Recv(Store(copy.ram, at, PageAt(s.ram, x)), Some(at.block))
  {
    hide Times, Power, PageSizeOk, UpToDate, FindBlock, TotalLength;
    var rec := RecordFor(pageSize, s, x);
    OffsetIndex(pageSize, x.page);
    assert BlockOk(pageSize, s.ram[x.block]);
    OffsetBelow(pageSize, x.page, |s.ram[x.block].pages|);
    HostedIn(s.ram, copy.ram, x);
  }

  /** Storing a page leaves every other page of the source where it was. */
  lemma StoreHosts(ram: Ram, copy: Ram, at: Pos, page: Page)
    requires InRam(copy, at) && Hosts(ram, copy)
    ensures SameBlocks(copy, Store(copy, at, page)) && Hosts(ram, Store(copy, at, page))
    ensures forall x :: InRam(ram, x) ==> Place(ram, Store(copy, at, page), x) == Place(ram, copy, x)
  {
    hide FindBlock;
    var copy' := Store(copy, at, page);
    forall id ensures FindBlock(copy', id) == FindBlock(copy, id) { FindSame(copy, copy', id); }
    forall b | 0 <= b < |ram| ensures Hosted(ram[b], copy') { assert Hosted(ram[b], copy); }
  }

  /** Different pages of the source are kept in different places. */
  lemma PlacesDiffer(pageSize: nat, ram: Ram, copy: Ram, x: Pos, y: Pos)
    requires RamOk(pageSize, ram) && Hosts(ram, copy) && InRam(ram, x) && InRam(ram, y) && x != y
    ensures Place(ram, copy, x) != Place(ram, copy, y)
  {
    HostedIn(ram, copy, x);
    HostedIn(ram, copy, y);
  }

  lemma SendFollows(pageSize: nat, s: Source, copy: Recv, x: Pos)
    requires Follows(pageSize, s, copy) && InRam(s.ram, x) && x in s.dirty
    ensures var at := Place(s.ram, copy.ram, x);
            && InRam(copy.ram, at)
            && Follows(pageSize, Next(pageSize, s, Sends(x)),
               Recv(Store(copy.ram, at, PageAt(s.ram, x)), Some(at.block)))
  {
    hide RamOk, FindBlock;
    HostedIn(s.ram, copy.ram, x);
    var at := Place(s.ram, copy.ram, x);
    var page := PageAt(s.ram, x);
    var ram' := Store(copy.ram, at, page);
    StoreHosts(s.ram, copy.ram, at, page);
    forall y | InRam(s.ram, y) && y !in s.dirty - {x} ensures Holds(s.ram, ram', y) {
      HostedIn(s.ram, copy.ram, y);
      if y != x {
        assert Holds(s.ram, copy.ram, y);
        PlacesDiffer(pageSize, s.ram, copy.ram, x, y);
      }
    }
  }

  lemma SendUntouched(ram: Ram, before: Ram, copy: Ram, x: Pos, page: Page)
    requires Hosts(ram, copy) && InRam(ram, x) && Untouched(ram, before, copy)
    ensures var at := Place(ram, copy, x); InRam(copy, at) && Untouched(ram, before, Store(copy, at, page))
  {
    hide FindBlock;
    HostedIn(ram, copy, x);
    FindSame(before, copy, ram[x.block].id);
    var at := Place(ram, copy, x);
    forall y | InRam(before, y) && Foreign(ram, before, y.block)
      ensures PageAt(Store(copy, at, page), y) == PageAt(before, y)
    {
      assert InRam(copy, y);
    }
  }

  lemma WriteFollows(pageSize: nat, s: Source, copy: Recv, x: Pos, page: Page)
    requires Follows(pageSize, s, copy) && Enabled(pageSize, s, Writes(x, page))
    ensures Follows(pageSize, Next(pageSize, s, Writes(x, page)), copy)
  {
    hide FindBlock;
    var ram' := Store(s.ram, x, page);
    StoreOk(pageSize, s.ram, x, page);
    hide RamOk;
    forall b | 0 <= b < |ram'| ensures Hosted(ram'[b], copy.ram) { assert Hosted(s.ram[b], copy.ram); }
    forall y | InRam(ram', y) && y !in s.dirty + {x} ensures Holds(ram', copy.ram, y) {
      assert Holds(s.ram, copy.ram, y);
      HostedIn(s.ram, copy.ram, y);
    }
  }

  lemma WriteUntouched(ram: Ram, before: Ram, copy: Ram, x: Pos, page: Page)
    requires InRam(ram, x) && Untouched(ram, before, copy)
    ensures Untouched(Store(ram, x, page), before, copy)
  {
    hide FindBlock;
    var ram' := Store(ram, x, page);
    forall y | InRam(before, y) && Foreign(ram', before, y.block) ensures Foreign(ram, before, y.block) {
      forall b | 0 <= b < |ram| ensures FindBlock(before, ram[b].id) != y.block { assert ram'[b].id == ram[b].id; }
    }
  }

  lemma StoreOk(pageSize: nat, ram: Ram, x: Pos, page: Page)
    requires RamOk(pageSize, ram) && InRam(ram, x) && |page| == pageSize
    ensures RamOk(pageSize, Store(ram, x, page))
  {
    hide Power, Times, TotalLength;
    var ram' := Store(ram, x, page);
    assert Descriptions(pageSize, ram') == Descriptions(pageSize, ram);
    forall b | 0 <= b < |ram'| ensures BlockOk(pageSize, ram'[b]) { assert BlockOk(pageSize, ram[b]); }
  }

  lemma StepSound(pageSize: nat, s: Source, start: Recv, e: Event)
    requires PageSizeOk(pageSize) && pageSize > 0 && Sound(pageSize, s, start) && Enabled(pageSize, s, e)
    ensures Sound(pageSize, Next(pageSize, s, e), start)
  {
    hide Follows, Encodable, Acceptable, Received, PageSizeOk, RecordFor, Untouched, Place;
    var copy := Meaning(pageSize, start, s.sent);
    FollowsHosts(pageSize, s, copy);
    match e
    case Sends(x) =>
      RecordGood(pageSize, s, copy, x);
      SendFollows(pageSize, s, copy, x);
      SendUntouched(s.ram, start.ram, copy.ram, x, PageAt(s.ram, x));
      StreamSnoc(pageSize, s.sent, RecordFor(pageSize, s, x));
      MeaningSnoc(pageSize, start, s.sent, RecordFor(pageSize, s, x));
    case Finds =>
    case Ends =>
      EndGood(pageSize, copy);
      StreamSnoc(pageSize, s.sent, EndOfSection);
      MeaningSnoc(pageSize, start, s.sent, EndOfSection);
      SentIrrelevant(pageSize, s, copy, s.sent + [EndOfSection]);
    case Writes(x, page) =>
      WriteFollows(pageSize, s, copy, x, page);
      WriteUntouched(s.ram, start.ram, copy.ram, x, page);
  }

  lemma FollowsHosts(pageSize: nat, s: Source, copy: Recv)
    requires Follows(pageSize, s, copy)
    ensures Hosts(s.ram, copy.ram)
  {
  }

  lemma EndGood(pageSize: nat, copy: Recv)
    requires pageSize > 0
    ensures Encodable(pageSize, EndOfSection) && Acceptable(pageSize, copy, EndOfSection)
            && Received(pageSize, copy, EndOfSection) == copy
  {
  }

  lemma SentIrrelevant(pageSize: nat, s: Source, copy: Recv, sent: seq<Record>)
    requires Follows(pageSize, s, copy)
    ensures Follows(pageSize, s.(sent := sent), copy)
  {
  }

  lemma {:induction false} LengthsAligned(pageSize: nat, blocks: seq<(seq<Byte>, nat)>)
    requires pageSize > 0 && forall i :: 0 <= i < |blocks| ==> blocks[i].1 % pageSize == 0
    ensures TotalLength(blocks) % pageSize == 0
  {
    if blocks != [] {
      LengthsAligned(pageSize, blocks[1..]);
      SumAligned(blocks[0].1, TotalLength(blocks[1..]), pageSize);
    }
  }

  lemma SumAligned(a: nat, b: nat, n: nat)
    requires n > 0 && a % n == 0 && b % n == 0
    ensures (a + b) % n == 0
  {
    assert a + b == (a / n + b / n) * n;
    MultipleMod(a / n + b / n, n);
  }

  lemma TimesPositive(a: nat, b: nat)
    requires a > 0 && b > 0
    ensures Times(a, b) > 0
  {
  }

  lemma HeaderGood(pageSize: nat, ram: Ram, start: Recv)
    requires pageSize > 0 && RamOk(pageSize, ram) && Hosts(ram, start.ram)
    ensures var rec := Header(Descriptions(pageSize, ram));
            Encodable(pageSize, rec) && Acceptable(pageSize, start, rec) && Received(pageSize, start, rec) == start
  {
    hide Power, Times, FindBlock;
    var ds := Descriptions(pageSize, ram);
    forall i | 0 <= i < |ds| ensures |ds[i].0| < 256 && ds[i].1 > 0 && ds[i].1 % pageSize == 0 {
      assert BlockOk(pageSize, ram[i]);
      TimesPositive(|ram[i].pages|, pageSize);
      OffsetIndex(pageSize, |ram[i].pages|);
    }
    LengthsAligned(pageSize, ds);
    forall i | 0 <= i < |ds|
      ensures Describes(pageSize, start.ram, ds[i].0, ds[i].1)
    {
      assert Hosted(ram[i], start.ram);
    }
  }

  lemma HeaderEncodable(pageSize: nat, ram: Ram)
    requires pageSize > 0 && RamOk(pageSize, ram)
    ensures Encodable(pageSize, Header(Descriptions(pageSize, ram)))
  {
    hide RamOk, Encodable, Acceptable, Received;
    SelfHosts(pageSize, ram);
    HeaderGood(pageSize, ram, Recv(ram, None));
  }

  lemma StartSound(pageSize: nat, s: Source, start: Recv)
    requires PageSizeOk(pageSize) && pageSize > 0 && Starts(pageSize, s) && Hosts(s.ram, start.ram)
    ensures Sound(pageSize, s, start)
  {
    hide Encodable, Acceptable, Received, RamOk;
    HeaderGood(pageSize, s.ram, start);
    var rec := Header(Descriptions(pageSize, s.ram));
    assert [] + [rec] == s.sent;
    StreamSnoc(pageSize, [], rec);
    MeaningSnoc(pageSize, start, [], rec);
  }

  // Runs.

  ghost predicate Run(pageSize: nat, s: Source, es: seq<Event>, z: Source)
    decreases |es|
  {
    if es == [] then z == s else Enabled(pageSize, s, es[0]) && Run(pageSize, Next(pageSize, s, es[0]), es[1..], z)
  }

  lemma {:induction false} RunSound(pageSize: nat, s: Source, start: Recv, es: seq<Event>, z: Source)
    requires PageSizeOk(pageSize) && pageSize > 0 && Sound(pageSize, s, start) && Run(pageSize, s, es, z)
    ensures Sound(pageSize, z, start)
    decreases |es|
  {
    hide Sound, Next, PageSizeOk;
    if es != [] {
      StepSound(pageSize, s, start, es[0]);
      RunSound(pageSize, Next(pageSize, s, es[0]), start, es[1..], z);
    }
  }

  // Loading.

  /** One call of ram_load for each section. */
  ghost function LoadSections(pageSize: nat, r: Recv, s: seq<Byte>, n: nat): Load<(Recv, seq<Byte>)>
    requires pageSize > 0
    decreases n
  {
    if n == 0 then Ok((r, s))
    else
      var (r1, s1) :- RamLoad(pageSize, r, s);
      LoadSections(pageSize, r1, s1, n - 1)
  }

  function Sections(recs: seq<Record>): nat {
    if recs == [] then 0 else (if recs[0].EndOfSection? then 1 else 0) + Sections(recs[1..])
  }

  /** The records of the first section. */
  function FirstEnd(recs: seq<Record>): (i: nat)
    requires recs != [] && recs[|recs| - 1].EndOfSection?
    ensures i < |recs| && recs[i].EndOfSection? && forall j :: 0 <= j < i ==> !recs[j].EndOfSection?
  {
    if recs[0].EndOfSection? then 0 else 1 + FirstEnd(recs[1..])
  }

  lemma {:induction false} SectionsSplit(recs: seq<Record>, i: nat)
    requires i < |recs| && recs[i].EndOfSection? && forall j :: 0 <= j < i ==> !recs[j].EndOfSection?
    ensures Sections(recs) == 1 + Sections(recs[i + 1..])
  {
    if i > 0 {
      SectionsSplit(recs[1..], i - 1);
      assert recs[1..][i..] == recs[i + 1..];
    }
  }

  lemma {:induction false} StreamConcat(pageSize: nat, a: seq<Record>, b: seq<Record>)
    requires pageSize > 0 && AllEncodable(pageSize, a + b)
    ensures AllEncodable(pageSize, a) && AllEncodable(pageSize, b)
    ensures Stream(pageSize, a + b) == Stream(pageSize, a) + Stream(pageSize, b)
  {
    hide Encode, Encodable;
    forall i | 0 <= i < |a| ensures Encodable(pageSize, a[i]) { assert (a + b)[i] == a[i]; }
    forall i | 0 <= i < |b| ensures Encodable(pageSize, b[i]) { assert (a + b)[|a| + i] == b[i]; }
    if b == [] {
      assert a + b == a;
    } else {
      var n := |b| - 1;
      assert (a + b)[..|a + b| - 1] == a + b[..n];
      StreamConcat(pageSize, a, b[..n]);
    }
  }

  lemma {:induction false} MeaningConcat(pageSize: nat, r: Recv, a: seq<Record>, b: seq<Record>)
    requires pageSize > 0 && AllAcceptable(pageSize, r, a + b)
    ensures AllAcceptable(pageSize, r, a) && AllAcceptable(pageSize, Meaning(pageSize, r, a), b)
    ensures Meaning(pageSize, r, a + b) == Meaning(pageSize, Meaning(pageSize, r, a), b)
  {
    hide Acceptable, Received;
    if b == [] {
      assert a + b == a;
    } else {
      var n := |b| - 1;
      assert (a + b)[..|a + b| - 1] == a + b[..n];
      MeaningConcat(pageSize, r, a, b[..n]);
    }
  }

  lemma {:induction false} SectionsLoad(pageSize: nat, r: Recv, recs: seq<Record>)
    requires PageSizeOk(pageSize) && pageSize > 0 && AllEncodable(pageSize, recs) && AllAcceptable(pageSize, r, recs)
    requires recs == [] || recs[|recs| - 1].EndOfSection?
    ensures LoadSections(pageSize, r, Stream(pageSize, recs), Sections(recs)) == Ok((Meaning(pageSize, r, recs), []))
    decreases |recs|
  {
    hide Encodable, Encode, Acceptable, Received, RamLoad, PageSizeOk;
    if recs != [] {
      var i := FirstEnd(recs);
      var a, b := recs[..i + 1], recs[i + 1..];
      assert recs == a + b;
      StreamConcat(pageSize, a, b);
      MeaningConcat(pageSize, r, a, b);
      SectionLoads(pageSize, r, a, Stream(pageSize, b));
      SectionsSplit(recs, i);
      SectionsLoad(pageSize, Meaning(pageSize, r, a), b);
    }
  }

  /** The source's pages, in the block with its id. */
  ghost predicate Copied(block: Block, copy: Ram) {
    var b := FindBlock(copy, block.id);
    b < |copy| && copy[b] == block
  }

  lemma Arrived(ram: Ram, copy: Ram, b: nat)
    requires Hosts(ram, copy) && UpToDate(ram, {}, copy) && b < |ram|
    ensures Copied(ram[b], copy)
  {
    hide FindBlock;
    assert Hosted(ram[b], copy);
    var c := FindBlock(copy, ram[b].id);
    forall j | 0 <= j < |ram[b].pages| ensures ram[b].pages[j] == copy[c].pages[j] {
      assert InRam(ram, Pos(b, j)) && Holds(ram, copy, Pos(b, j));
    }
    assert ram[b].pages == copy[c].pages;
  }

  /**
   Migration is correct.  However guest writes and stages interleave, once no page is dirty and the
   last stage has ended, loading the sections one by one gives every block of the source, found by its
   id, the source's pages; the destination's other blocks are left alone.
   */
  lemma MigrationIsExact(pageSize: nat, first: Source, start: Recv, es: seq<Event>, s: Source)
    requires PageSizeOk(pageSize) && pageSize > 0 && Starts(pageSize, first) && Hosts(first.ram, start.ram)
    requires Run(pageSize, first, es, s) && s.dirty == {} && s.sent != [] && s.sent[|s.sent| - 1].EndOfSection?
    ensures AllEncodable(pageSize, s.sent)
    ensures var x := LoadSections(pageSize, start, Stream(pageSize, s.sent), Sections(s.sent));
            && x.Ok? && x.value.1 == []
            && (forall b :: 0 <= b < |s.ram| ==> Copied(s.ram[b], x.value.0.ram))
            && Untouched(s.ram, start.ram, x.value.0.ram)
  {
    hide PageSizeOk, RamOk, Encodable, Acceptable, Received, Encode, LoadSections, Run, Starts, Copied, Untouched,
      Hosts, UpToDate;
    StartSound(pageSize, first, start);
    RunSound(pageSize, first, start, es, s);
    SectionsLoad(pageSize, start, s.sent);
    forall b | 0 <= b < |s.ram| ensures Copied(s.ram[b], Meaning(pageSize, start, s.sent).ram) {
      Arrived(s.ram, Meaning(pageSize, start, s.sent).ram, b);
    }
  }

  /** At every moment: a page is dirty, or the stream sent so far holds its current contents. */
  lemma DirtyOrSent(pageSize: nat, first: Source, start: Recv, es: seq<Event>, s: Source, x: Pos)
    requires PageSizeOk(pageSize) && pageSize > 0 && Starts(pageSize, first) && Hosts(first.ram, start.ram)
    requires Run(pageSize, first, es, s) && InRam(s.ram, x)
    ensures AllAcceptable(pageSize, start, s.sent)
    ensures var copy := Meaning(pageSize, start, s.sent);
            var at := Place(s.ram, copy.ram, x);
            && InRam(copy.ram, at) && (x in s.dirty || PageAt(copy.ram, at) == PageAt(s.ram, x))
            && (s.last.Some? ==>
               InRam(s.ram, s.last.value) && copy.current == Some(Place(s.ram, copy.ram, s.last.value).block))
            && (s.last.None? ==> x in s.dirty)
  {
    hide PageSizeOk, RamOk, Encodable, Acceptable, Received, Encode, Run, Starts, Hosts, Untouched, FindBlock;
    StartSound(pageSize, first, start);
    RunSound(pageSize, first, start, es, s);
    var copy := Meaning(pageSize, start, s.sent);
    HostedIn(s.ram, copy.ram, x);
    assert x in s.dirty || Holds(s.ram, copy.ram, x);
  }

  // Destinations that lack a block.

  /** What is sent does not depend on the destination; the source could receive it itself. */
  lemma SentEncodable(pageSize: nat, first: Source, es: seq<Event>, s: Source)
    requires PageSizeOk(pageSize) && pageSize > 0 && Starts(pageSize, first) && Run(pageSize, first, es, s)
    ensures AllEncodable(pageSize, s.sent)
  {
    hide PageSizeOk, Encodable, Run, RamOk;
    SelfHosts(pageSize, first.ram);
    StartSound(pageSize, first, Recv(first.ram, None));
    RunSound(pageSize, first, Recv(first.ram, None), es, s);
  }

  lemma {:induction false} HeaderStays(pageSize: nat, s: Source, es: seq<Event>, z: Source)
    requires Run(pageSize, s, es, z) && s.sent != []
    ensures z.sent != [] && z.sent[0] == s.sent[0]
    decreases |es|
  {
    if es != [] { HeaderStays(pageSize, Next(pageSize, s, es[0]), es[1..], z); }
  }

  lemma SameTimes(a: nat, b: nat, n: nat)
    requires n > 0 && Times(a, n) == Times(b, n)
    ensures a == b
  {
    MultipleMod(a, n);
    MultipleMod(b, n);
  }

  lemma NotDescribed(pageSize: nat, ram: Ram, start: Recv)
    requires pageSize > 0 && !Hosts(ram, start.ram)
    ensures !Acceptable(pageSize, start, Header(Descriptions(pageSize, ram)))
  {
    hide Times, FindBlock;
    var ds := Descriptions(pageSize, ram);
    var b :| 0 <= b < |ram| && !Hosted(ram[b], start.ram);
    var c := FindBlock(start.ram, ram[b].id);
    assert !Describes(pageSize, start.ram, ds[b].0, ds[b].1) by {
      if c < |start.ram| && Times(|start.ram[c].pages|, pageSize) == ds[b].1 {
        SameTimes(|start.ram[c].pages|, |ram[b].pages|, pageSize);
      }
    }
  }

  lemma {:induction false} EndCounts(recs: seq<Record>)
    requires recs != [] && recs[|recs| - 1].EndOfSection?
    ensures Sections(recs) > 0
  {
    if !recs[0].EndOfSection? { EndCounts(recs[1..]); }
  }

  /** A destination that lacks one of the blocks, or has it with another length, refuses the stream. */
  lemma MissingBlockRefused(pageSize: nat, first: Source, start: Recv, es: seq<Event>, s: Source)
    requires PageSizeOk(pageSize) && pageSize > 0 && Starts(pageSize, first) && !Hosts(first.ram, start.ram)
    requires Run(pageSize, first, es, s) && s.sent != [] && s.sent[|s.sent| - 1].EndOfSection?
    ensures AllEncodable(pageSize, s.sent)
    ensures LoadSections(pageSize, start, Stream(pageSize, s.sent), Sections(s.sent)) == Einval
  {
    hide PageSizeOk, Encodable, Acceptable, Encode, Run, Hosts, RamOk, Turn, Stream;
    SentEncodable(pageSize, first, es, s);
    HeaderStays(pageSize, first, es, s);
    NotDescribed(pageSize, first.ram, start);
    StreamCons(pageSize, s.sent);
    HeaderRefused(pageSize, start, s.sent[0], Stream(pageSize, s.sent[1..]));
    EndCounts(s.sent);
  }
}
