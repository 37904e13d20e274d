/** The byte stream of a RAM migration: its primitive fields and its records. */
module MigrationStream {
  import opened Arithmetic
  import opened Basics

  newtype Byte = x: int | 0 <= x < 256

  type Page = seq<Byte>

  const COMPRESS: nat := 2
  const MEM_SIZE: nat := 4
  const PAGE: nat := 8
  const EOS: nat := 16
  const CONTINUE: nat := 32

  predicate Has(flags: nat, flag: nat)
    requires flag > 0
  {
    (flags / flag) % 2 == 1
  }

  // Big-endian numbers.

  function Power(n: nat): (r: nat)
    ensures r > 0
  {
    if n == 0 then 1 else 256 * Power(n - 1)
  }

  function Put(n: nat, v: nat): (r: seq<Byte>)
    ensures |r| == n
  {
    if n == 0 then [] else Put(n - 1, v / 256) + [(v % 256) as Byte]
  }

  function Get(s: seq<Byte>): nat {
    if s == [] then 0 else Get(s[..|s| - 1]) * 256 + s[|s| - 1] as nat
  }

  lemma {:induction false} PutGet(n: nat, v: nat)
    requires v < Power(n)
    ensures Get(Put(n, v)) == v
  {
    if n > 0 {
      PutGet(n - 1, v / 256);
      assert Put(n, v)[..n - 1] == Put(n - 1, v / 256);
    }
  }

  // Records.

  /** What the sender writes: the list of blocks, a page, or the end of a section. */
  datatype Record =
    | Header(blocks: seq<(seq<Byte>, nat)>)
    | PageRecord(offset: nat, id: Option<seq<Byte>>, page: Page)
    | EndOfSection

  /** A page all of whose bytes are equal is sent as one byte. */
  predicate Uniform(page: Page) { forall i :: 0 <= i < |page| ==> page[i] == page[0] }

  function IdField(id: seq<Byte>): seq<Byte>
    requires |id| < 256
  {
    [|id| as Byte] + id
  }

  function TotalLength(blocks: seq<(seq<Byte>, nat)>): nat {
    if blocks == [] then 0 else blocks[0].1 + TotalLength(blocks[1..])
  }

  function BlockList(blocks: seq<(seq<Byte>, nat)>): seq<Byte>
    requires forall i :: 0 <= i < |blocks| ==> |blocks[i].0| < 256
  {
    if blocks == [] then [] else IdField(blocks[0].0) + Put(8, blocks[0].1) + BlockList(blocks[1..])
  }

  ghost predicate Encodable(pageSize: nat, r: Record)
    requires pageSize > 0
  {
    match r
    case Header(blocks) =>
      && (forall i :: 0 <= i < |blocks| ==> |blocks[i].0| < 256 && blocks[i].1 > 0 && blocks[i].1 % pageSize == 0)
      && TotalLength(blocks) + MEM_SIZE < Power(8) && TotalLength(blocks) % pageSize == 0
    case PageRecord(offset, id, page) =>
      offset % pageSize == 0 && offset + CONTINUE + PAGE < Power(8) && |page| == pageSize
          && (id.Some? ==> |id.value| < 256)
    case EndOfSection => true
  }

  function PageFlags(id: Option<seq<Byte>>, page: Page): nat {
    (if id.None? then CONTINUE else 0) + (if Uniform(page) then COMPRESS else PAGE)
  }

  ghost function Encode(pageSize: nat, r: Record): seq<Byte>
    requires pageSize > 0 && Encodable(pageSize, r)
  {
    match r
    case Header(blocks) => Put(8, TotalLength(blocks) + MEM_SIZE) + BlockList(blocks)
    case PageRecord(offset, id, page) =>
      Put(8, offset + PageFlags(id, page)) + (if id.Some? then IdField(id.value) else [])
          + (if Uniform(page) then [page[0]] else page)
    case EndOfSection => Put(8, EOS)
  }

  // The bytes of a record.

  /** A word goes out with its most significant byte first. */
  lemma {:induction false} BigEndian(n: nat, v: nat, k: nat)
    requires k < n
    ensures Put(n, v)[k] as nat == v / Power(n - 1 - k) % 256
  {
    if k < n - 1 {
      BigEndian(n - 1, v / 256, k);
      DivTwice(v, 256, Power(n - 2 - k));
    }
  }

  lemma DivTwice(v: nat, a: nat, b: nat)
    requires a > 0 && b > 0
    ensures a * b > 0 && v / a / b == v / (a * b)
  {
    var q, r := v / a, v % a;
    var x, y := q / b, q % b;
    assert v == (x * b + y) * a + r;
    assert (x * b + y) * a == x * (a * b) + y * a;
    MulAtLeast(b - y, a);
    assert (b - y) * a == b * a - y * a;
    DivModUnique(v, a * b, x, y * a + r);
  }

  /** The word, the name of the block unless it is the one before, and the page or its one byte. */
  lemma PageOnTheWire(pageSize: nat, offset: nat, id: Option<seq<Byte>>, page: Page)
    requires pageSize > 0 && Encodable(pageSize, PageRecord(offset, id, page))
    ensures var e, dup := Encode(pageSize, PageRecord(offset, id, page)),
            forall i :: 0 <= i < |page| ==> page[i] == page[0];
            var word := offset + (if id.None? then 0x20 else 0) + (if dup then 0x02 else 0x08);
            var name := if id.Some? then [|id.value| as Byte] + id.value else [];
            && |e| == 8 + |name| + (if dup then 1 else pageSize)
            && (forall k :: 0 <= k < 8 ==> e[k] as nat == word / Power(7 - k) % 256)
            && e[8..8 + |name|] == name && e[8 + |name|..] == if dup then [page[0]] else page
  {
    hide Put, Power;
    var word := offset + PageFlags(id, page);
    forall k | 0 <= k < 8 ensures Put(8, word)[k] as nat == word / Power(7 - k) % 256 { BigEndian(8, word, k); }
  }

  /** The total with its flag, then each block with its name and its length; and the end of a section. */
  lemma HeaderOnTheWire(pageSize: nat, blocks: seq<(seq<Byte>, nat)>)
    requires pageSize > 0 && Encodable(pageSize, Header(blocks)) && blocks != []
    ensures var (id, length) := blocks[0];
            Encode(pageSize, Header(blocks))
            == Put(8, length + TotalLength(blocks[1..]) + 0x04)
                + ([|id| as Byte] + id + Put(8, length) + BlockList(blocks[1..]))
    ensures Encode(pageSize, EndOfSection) == [0, 0, 0, 0, 0, 0, 0, 0x10]
  {
    hide Power;
    EndBytes();
  }

  lemma EndBytes()
    ensures Put(8, 16) == [0, 0, 0, 0, 0, 0, 0, 16]
  {
    assert Put(1, 0) == [0];
    assert Put(2, 0) == [0, 0];
    assert Put(3, 0) == [0, 0, 0];
    assert Put(4, 0) == [0, 0, 0, 0];
    assert Put(5, 0) == [0, 0, 0, 0, 0];
    assert Put(6, 0) == [0, 0, 0, 0, 0, 0];
    assert Put(7, 0) == [0, 0, 0, 0, 0, 0, 0];
  }

  /** The page size leaves room for the flags in the low bits of an offset. */
  ghost predicate PageSizeOk(pageSize: nat) { pageSize >= 64 && pageSize % 4 == 0 }
}
