/** What the receiver makes of every record the sender can write. */
module MigrationRoundTrip {
  import opened Arithmetic
  import opened Basics
  import opened MigrationStream
  import opened MigrationRam

  /** The block a page record is about. */
  function Named(r: Recv, id: Option<seq<Byte>>): Option<nat> {
    if id.None? then r.current
    else
      var b := FindBlock(r.ram, id.value);
      if b < |r.ram| then Some(b) else None
  }

  /** The receiver has a block of that name and length. */
  ghost predicate Describes(pageSize: nat, ram: Ram, id: seq<Byte>, length: nat) {
    var b := FindBlock(ram, id); b < |ram| && Times(|ram[b].pages|, pageSize) == length
  }

  ghost predicate Acceptable(pageSize: nat, r: Recv, rec: Record)
    requires pageSize > 0
  {
    match rec
    case Header(blocks) =>
      forall i :: 0 <= i < |blocks| ==> Describes(pageSize, r.ram, blocks[i].0, blocks[i].1)
    case PageRecord(offset, id, page) => Named(r, id).Some? && InRam(r.ram, Pos(Named(r, id).value, offset / pageSize))
    case EndOfSection => true
  }

  /** The meaning of a record. */
  ghost function Received(pageSize: nat, r: Recv, rec: Record): Recv
    requires pageSize > 0 && Acceptable(pageSize, r, rec)
  {
    match rec
    case Header(blocks) => r
    case PageRecord(offset, id, page) =>
        Recv(Store(r.ram, Pos(Named(r, id).value, offset / pageSize), page), Named(r, id))
    case EndOfSection => r
  }

  lemma BytesFirst(a: seq<Byte>, b: seq<Byte>)
    ensures GetBytes(a + b, |a|) == Ok((a, b))
  {
    assert (a + b)[..|a|] == a && (a + b)[|a|..] == b;
  }

  lemma IdFirst(id: seq<Byte>, rest: seq<Byte>)
    requires |id| < 256
    ensures GetId(IdField(id) + rest) == Ok((id, rest))
  {
    var len := [|id| as Byte];
    assert IdField(id) + rest == len + (id + rest);
    BytesFirst(len, id + rest);
    BytesFirst(id, rest);
  }

  /** The first word of a record. */
  lemma WordFirst(pageSize: nat, offset: nat, flags: nat, rest: seq<Byte>)
    requires pageSize > 0 && flags < pageSize && offset % pageSize == 0 && offset + flags < Power(8)
    ensures var w := Put(8, offset + flags);
            && GetBytes(w + rest, 8) == Ok((w, rest))
            && FlagsOf(pageSize, Get(w)) == flags && IndexIn(pageSize, Get(w)) == offset / pageSize
               && Times(offset / pageSize, pageSize) == offset
  {
    hide Put, Get, Power;
    var w := Put(8, offset + flags);
    BytesFirst(w, rest);
    PutGet(8, offset + flags);
    DivModUnique(offset + flags, pageSize, offset / pageSize, flags);
  }

  /** The receiver takes exactly as many block descriptions as add up to the total. */
  lemma {:induction false} ListFirst(pageSize: nat, ram: Ram, blocks: seq<(seq<Byte>, nat)>, rest: seq<Byte>)
    requires forall i :: 0 <= i < |blocks| ==> |blocks[i].0| < 256 && blocks[i].1 > 0
    requires forall i :: 0 <= i < |blocks| ==> Describes(pageSize, ram, blocks[i].0, blocks[i].1)
    requires TotalLength(blocks) < Power(8)
    ensures SyncBlocks(pageSize, ram, TotalLength(blocks), BlockList(blocks) + rest) == Ok(rest)
  {
    hide Power, Put, Get, Describes, SyncBlocks;
    if blocks == [] {
      assert BlockList(blocks) + rest == rest;
      ListEnd(pageSize, ram, rest);
    } else {
      var (id, length) := blocks[0];
      var tail := BlockList(blocks[1..]) + rest;
      assert BlockList(blocks) + rest == IdField(id) + (Put(8, length) + tail);
      ListNext(pageSize, ram, id, length, TotalLength(blocks), tail);
      ListFirst(pageSize, ram, blocks[1..], rest);
    }
  }

  lemma ListEnd(pageSize: nat, ram: Ram, rest: seq<Byte>)
    ensures SyncBlocks(pageSize, ram, 0, rest) == Ok(rest)
  {
  }

  lemma ListNext(pageSize: nat, ram: Ram, id: seq<Byte>, length: nat, total: nat, tail: seq<Byte>)
    requires |id| < 256 && 0 < length <= total < Power(8) && Describes(pageSize, ram, id, length)
    ensures SyncBlocks(pageSize, ram, total, IdField(id) + (Put(8, length) + tail))
            == SyncBlocks(pageSize, ram, total - length, tail)
  {
    hide Power, Put, Get, FindBlock, Times, GetId, GetBytes, IdField;
    IdFirst(id, Put(8, length) + tail);
    BytesFirst(Put(8, length), tail);
    PutGet(8, length);
    Remaining(total, length, Power(8));
  }

  lemma Remaining(total: nat, length: nat, m: nat)
    requires length <= total < m
    ensures (total + m - length % m) % m == total - length
  {
    DivModUnique(length, m, 0, length);
    DivModUnique(total + m - length, m, 1, total - length);
  }

  /** A list that names an unknown block, or a wrong length, is refused. */
  lemma {:induction false} ListRefused(pageSize: nat, ram: Ram, blocks: seq<(seq<Byte>, nat)>, rest: seq<Byte>, i: nat)
    requires forall i :: 0 <= i < |blocks| ==> |blocks[i].0| < 256 && blocks[i].1 > 0
    requires i < |blocks| && !Describes(pageSize, ram, blocks[i].0, blocks[i].1)
    requires TotalLength(blocks) < Power(8)
    ensures SyncBlocks(pageSize, ram, TotalLength(blocks), BlockList(blocks) + rest) == Einval
  {
    hide Power, Put, Get, Describes, SyncBlocks;
    var (id, length) := blocks[0];
    var tail := BlockList(blocks[1..]) + rest;
    assert BlockList(blocks) + rest == IdField(id) + (Put(8, length) + tail);
    if Describes(pageSize, ram, id, length) {
      ListNext(pageSize, ram, id, length, TotalLength(blocks), tail);
      ListRefused(pageSize, ram, blocks[1..], rest, i - 1);
    } else {
      ListStops(pageSize, ram, id, length, TotalLength(blocks), tail);
    }
  }

  lemma ListStops(pageSize: nat, ram: Ram, id: seq<Byte>, length: nat, total: nat, tail: seq<Byte>)
    requires |id| < 256 && 0 < length <= total < Power(8) && !Describes(pageSize, ram, id, length)
    ensures SyncBlocks(pageSize, ram, total, IdField(id) + (Put(8, length) + tail)) == Einval
  {
    hide Power, Put, Get, FindBlock, Times, GetId, GetBytes, IdField;
    IdFirst(id, Put(8, length) + tail);
    BytesFirst(Put(8, length), tail);
    PutGet(8, length);
  }

  lemma HeaderRefused(pageSize: nat, r: Recv, rec: Record, rest: seq<Byte>)
    requires PageSizeOk(pageSize) && Encodable(pageSize, rec) && rec.Header? && !Acceptable(pageSize, r, rec)
    ensures Turn(pageSize, r, Encode(pageSize, rec) + rest) == Einval
  {
    hide Put, Get, Power, SyncBlocks, BlockList, TotalLength, FlagsOf, IndexIn, Times, GetBytes;
    var total, list := TotalLength(rec.blocks), BlockList(rec.blocks);
    assert Encode(pageSize, rec) + rest == Put(8, total + MEM_SIZE) + (list + rest);
    WordFirst(pageSize, total, MEM_SIZE, list + rest);
    var i :| 0 <= i < |rec.blocks| && !Describes(pageSize, r.ram, rec.blocks[i].0, rec.blocks[i].1);
    ListRefused(pageSize, r.ram, rec.blocks, rest, i);
  }

  lemma HeaderDecodes(pageSize: nat, r: Recv, rec: Record, rest: seq<Byte>)
    requires PageSizeOk(pageSize) && Encodable(pageSize, rec) && Acceptable(pageSize, r, rec) && rec.Header?
    ensures Turn(pageSize, r, Encode(pageSize, rec) + rest) == Ok((r, rest, false))
  {
    hide Put, Get, Power, SyncBlocks, BlockList, TotalLength, FlagsOf, IndexIn, Times, GetBytes;
    var total, list := TotalLength(rec.blocks), BlockList(rec.blocks);
    assert Encode(pageSize, rec) + rest == Put(8, total + MEM_SIZE) + (list + rest);
    WordFirst(pageSize, total, MEM_SIZE, list + rest);
    ListFirst(pageSize, r.ram, rec.blocks, rest);
  }

  lemma EndDecodes(pageSize: nat, r: Recv, rest: seq<Byte>)
    requires PageSizeOk(pageSize)
    ensures Turn(pageSize, r, Encode(pageSize, EndOfSection) + rest) == Ok((r, rest, true))
  {
    hide Put, Get, SyncBlocks, FlagsOf, IndexIn, Times, GetBytes;
    assert EOS < Power(8) by { SmallWord(); }
    WordFirst(pageSize, 0, EOS, rest);
  }

  lemma SmallWord()
    ensures 256 <= Power(8)
  {
    assert Power(8) == 256 * Power(7);
  }

  lemma UniformIsFilled(pageSize: nat, page: Page)
    requires |page| == pageSize && Uniform(page) && pageSize > 0
    ensures page == Filled(pageSize, page[0])
  {
  }

  lemma PageReceived(pageSize: nat, r: Recv, rec: Record, rest: seq<Byte>)
    requires PageSizeOk(pageSize) && Encodable(pageSize, rec) && Acceptable(pageSize, r, rec) && rec.PageRecord?
    ensures var tail := (if rec.id.Some? then IdField(rec.id.value) else [])
            + (if Uniform(rec.page) then [rec.page[0]] else rec.page);
            ReceivePage(pageSize, r, PageFlags(rec.id, rec.page), rec.offset / pageSize, tail + rest)
                == Ok((Received(pageSize, r, rec), rest))
  {
    hide Power, Uniform, IdField, GetId, GetBytes, Store, FindBlock, Filled;
    var data := if Uniform(rec.page) then [rec.page[0]] else rec.page;
    var tail := (if rec.id.Some? then IdField(rec.id.value) else []) + data;
    if rec.id.Some? {
      assert tail + rest == IdField(rec.id.value) + (data + rest);
      IdFirst(rec.id.value, data + rest);
    } else {
      assert tail + rest == data + rest;
    }
    BytesFirst(data, rest);
    if Uniform(rec.page) { UniformIsFilled(pageSize, rec.page); }
  }

  lemma PageDecodes(pageSize: nat, r: Recv, rec: Record, rest: seq<Byte>)
    requires PageSizeOk(pageSize) && Encodable(pageSize, rec) && Acceptable(pageSize, r, rec) && rec.PageRecord?
    ensures Turn(pageSize, r, Encode(pageSize, rec) + rest) == Ok((Received(pageSize, r, rec), rest, false))
  {
    hide Put, Get, Power, SyncBlocks, FlagsOf, IndexIn, Times, GetBytes, Received, ReceivePage, Uniform, IdField,
      Acceptable;
    var tail := (if rec.id.Some? then IdField(rec.id.value) else [])
        + (if Uniform(rec.page) then [rec.page[0]] else rec.page);
    assert Encode(pageSize, rec) + rest == Put(8, rec.offset + PageFlags(rec.id, rec.page)) + (tail + rest);
    WordFirst(pageSize, rec.offset, PageFlags(rec.id, rec.page), tail + rest);
    PageReceived(pageSize, r, rec, rest);
  }

  /** The round trip: one turn of the loop undoes one record, whatever follows it. */
  lemma TurnDecodes(pageSize: nat, r: Recv, rec: Record, rest: seq<Byte>)
    requires PageSizeOk(pageSize) && Encodable(pageSize, rec) && Acceptable(pageSize, r, rec)
    ensures Turn(pageSize, r, Encode(pageSize, rec) + rest) == Ok((Received(pageSize, r, rec), rest, rec.EndOfSection?))
  {
    hide Turn, Encode, Encodable;
    match rec
    case Header(blocks) => HeaderDecodes(pageSize, r, rec, rest);
    case PageRecord(offset, id, page) => PageDecodes(pageSize, r, rec, rest);
    case EndOfSection => EndDecodes(pageSize, r, rest);
  }

  // Sequences of records.

  ghost predicate AllEncodable(pageSize: nat, recs: seq<Record>)
    requires pageSize > 0
  {
    forall i :: 0 <= i < |recs| ==> Encodable(pageSize, recs[i])
  }

  ghost function Stream(pageSize: nat, recs: seq<Record>): seq<Byte>
    requires pageSize > 0 && AllEncodable(pageSize, recs)
  {
    if recs == [] then [] else Stream(pageSize, recs[..|recs| - 1]) + Encode(pageSize, recs[|recs| - 1])
  }

  /** Every record is acceptable when its turn comes. */
  ghost predicate AllAcceptable(pageSize: nat, r: Recv, recs: seq<Record>)
    requires pageSize > 0
    decreases |recs|, 0
  {
    if recs == [] then true
    else
      && AllAcceptable(pageSize, r, recs[..|recs| - 1])
      && Acceptable(pageSize, Meaning(pageSize, r, recs[..|recs| - 1]), recs[|recs| - 1])
  }

  ghost function Meaning(pageSize: nat, r: Recv, recs: seq<Record>): Recv
    requires pageSize > 0 && AllAcceptable(pageSize, r, recs)
    decreases |recs|, 1
  {
    if recs == [] then r else Received(pageSize, Meaning(pageSize, r, recs[..|recs| - 1]), recs[|recs| - 1])
  }

  lemma MeaningSnoc(pageSize: nat, r: Recv, recs: seq<Record>, rec: Record)
    requires pageSize > 0 && AllAcceptable(pageSize, r, recs) && Acceptable(pageSize, Meaning(pageSize, r, recs), rec)
    ensures AllAcceptable(pageSize, r, recs + [rec])
            && Meaning(pageSize, r, recs + [rec]) == Received(pageSize, Meaning(pageSize, r, recs), rec)
  {
    assert (recs + [rec])[..|recs|] == recs;
  }

  lemma StreamSnoc(pageSize: nat, recs: seq<Record>, rec: Record)
    requires pageSize > 0 && AllEncodable(pageSize, recs) && Encodable(pageSize, rec)
    ensures AllEncodable(pageSize, recs + [rec]) && Stream(pageSize, recs + [rec]) == Stream(pageSize, recs)
            + Encode(pageSize, rec)
  {
    assert (recs + [rec])[..|recs|] == recs;
  }

  // Reading from the front.

  lemma StreamLast(pageSize: nat, recs: seq<Record>)
    requires pageSize > 0 && AllEncodable(pageSize, recs) && recs != []
    ensures AllEncodable(pageSize, recs[..|recs| - 1]) && AllEncodable(pageSize, recs[1..])
    ensures Stream(pageSize, recs) == Stream(pageSize, recs[..|recs| - 1]) + Encode(pageSize, recs[|recs| - 1])
  {
  }

  lemma StreamNone(pageSize: nat)
    requires pageSize > 0
    ensures Stream(pageSize, []) == []
  {
  }

  lemma Regroup(a: seq<Byte>, b: seq<Byte>, c: seq<Byte>)
    ensures (a + b) + c == a + (b + c)
  {
  }

  lemma {:induction false} StreamCons(pageSize: nat, recs: seq<Record>)
    requires pageSize > 0 && AllEncodable(pageSize, recs) && recs != []
    ensures AllEncodable(pageSize, recs[1..]) && Stream(pageSize, recs) == Encode(pageSize, recs[0])
            + Stream(pageSize, recs[1..])
    decreases |recs|
  {
    hide Encode, Encodable, Stream;
    var n := |recs| - 1;
    StreamLast(pageSize, recs);
    if n == 0 {
      StreamNone(pageSize);
      assert recs[..0] == [] && recs[1..] == [];
    } else {
      StreamCons(pageSize, recs[..n]);
      StreamLast(pageSize, recs[1..]);
      assert recs[..n][1..] == recs[1..][..n - 1] && recs[..n][0] == recs[0] && recs[1..][n - 1] == recs[n];
      Regroup(Encode(pageSize, recs[0]), Stream(pageSize, recs[1..][..n - 1]), Encode(pageSize, recs[n]));
    }
  }

  lemma {:induction false} MeaningCons(pageSize: nat, r: Recv, recs: seq<Record>)
    requires pageSize > 0 && AllAcceptable(pageSize, r, recs) && recs != []
    ensures Acceptable(pageSize, r, recs[0]) && AllAcceptable(pageSize, Received(pageSize, r, recs[0]), recs[1..])
    ensures Meaning(pageSize, r, recs) == Meaning(pageSize, Received(pageSize, r, recs[0]), recs[1..])
    decreases |recs|
  {
    hide Acceptable, Received;
    var n := |recs| - 1;
    if n == 0 {
      assert recs[..0] == [] && recs[1..] == [];
    } else {
      MeaningCons(pageSize, r, recs[..n]);
      assert recs[..n][0] == recs[0];
      assert recs[..n][1..] == recs[1..][..n - 1];
      assert recs[1..][n - 1] == recs[n];
    }
  }

  /** One call of ram_load per section consumes the whole stream and arrives at its meaning. */
  lemma {:induction false} SectionLoads(pageSize: nat, r: Recv, recs: seq<Record>, rest: seq<Byte>)
    requires PageSizeOk(pageSize) && AllEncodable(pageSize, recs) && AllAcceptable(pageSize, r, recs) && recs != []
    requires recs[|recs| - 1] == EndOfSection && forall i :: 0 <= i < |recs| - 1 ==> !recs[i].EndOfSection?
    ensures RamLoad(pageSize, r, Stream(pageSize, recs) + rest) == Ok((Meaning(pageSize, r, recs), rest))
    decreases |recs|
  {
    hide Encode, Encodable, Turn, Acceptable, Received, PageSizeOk;
    PagePositive(pageSize);
    StreamCons(pageSize, recs);
    MeaningCons(pageSize, r, recs);
    assert Stream(pageSize, recs) + rest == Encode(pageSize, recs[0]) + (Stream(pageSize, recs[1..]) + rest);
    TurnDecodes(pageSize, r, recs[0], Stream(pageSize, recs[1..]) + rest);
    if |recs| == 1 {
      assert recs[1..] == [];
      assert Stream(pageSize, recs[1..]) + rest == rest;
    } else {
      SectionLoads(pageSize, Received(pageSize, r, recs[0]), recs[1..], rest);
    }
  }

  lemma PagePositive(pageSize: nat)
    requires PageSizeOk(pageSize)
    ensures pageSize > 0
  {
  }
}
