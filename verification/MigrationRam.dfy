/** Guest memory as a list of blocks, and the receiver that rebuilds it from the stream. */
module MigrationRam {
  import opened Arithmetic
  import opened Basics
  import opened MigrationStream

  datatype Block = Block(id: seq<Byte>, pages: seq<Page>)

  type Ram = seq<Block>

  /** A page: the index of its block, and its index in the block. */
  datatype Pos = Pos(block: nat, page: nat)

  predicate InRam(ram: Ram, x: Pos) { x.block < |ram| && x.page < |ram[x.block].pages| }

  function PageAt(ram: Ram, x: Pos): Page
    requires InRam(ram, x)
  {
    ram[x.block].pages[x.page]
  }

  function Store(ram: Ram, x: Pos, page: Page): (r: Ram)
    requires InRam(ram, x)
    ensures |r| == |ram| && (forall b :: 0 <= b < |ram| ==> r[b].id == ram[b].id && |r[b].pages| == |ram[b].pages|)
    ensures forall y :: InRam(ram, y) ==> InRam(r, y) && PageAt(r, y) == if y == x then page else PageAt(ram, y)
  {
    ram[x.block := ram[x.block].(pages := ram[x.block].pages[x.page := page])]
  }

  /** The index of the first block with an id, or the number of blocks. */
  function FindBlock(ram: Ram, id: seq<Byte>): (b: nat)
    ensures b <= |ram|
    ensures b < |ram| ==> ram[b].id == id
    ensures forall c :: 0 <= c < b ==> ram[c].id != id
  {
    if ram == [] || ram[0].id == id then 0 else 1 + FindBlock(ram[1..], id)
  }

  // The receiver.

  datatype Load<+T> = Ok(value: T) | Einval | Eio | Crash {
    predicate IsFailure() { !Ok? }
    function PropagateFailure<U>(): Load<U> requires !Ok? { if Einval? then Einval else if Eio? then Eio else Crash }
    function Extract(): T requires Ok? { value }
  }

  /** The memory received so far, and the block the last identified record named. */
  datatype Recv = Recv(ram: Ram, current: Option<nat>)

  function GetBytes(s: seq<Byte>, n: nat): (r: Load<(seq<Byte>, seq<Byte>)>)
    ensures r.Ok? ==> |r.value.0| == n && s == r.value.0 + r.value.1
  {
    if |s| < n then Eio else Ok((s[..n], s[n..]))
  }

  function GetId(s: seq<Byte>): (r: Load<(seq<Byte>, seq<Byte>)>)
    ensures r.Ok? ==> |r.value.1| < |s|
  {
    var (len, s1) :- GetBytes(s, 1);
    GetBytes(s1, len[0] as nat)
  }

  /** host_from_stream_offset: the block a record is about, and the rest of the stream. */
  function Resolve(r: Recv, flags: nat, s: seq<Byte>): (x: Load<(Option<nat>, seq<Byte>)>)
    ensures x.Ok? ==> |x.value.1| <= |s|
  {
    if Has(flags, CONTINUE) then Ok((r.current, s))
    else
      var (id, s1) :- GetId(s);
      var b := FindBlock(r.ram, id);
      Ok((if b < |r.ram| then Some(b) else None, s1))
  }

  /** The list of blocks must name known blocks with the same lengths. */
  function SyncBlocks(pageSize: nat, ram: Ram, total: nat, s: seq<Byte>): (x: Load<seq<Byte>>)
    ensures x.Ok? ==> |x.value| <= |s|
    decreases |s|
  {
    if total == 0 then Ok(s)
    else
      var (id, s1) :- GetId(s);
      var (word, s2) :- GetBytes(s1, 8);
      var b := FindBlock(ram, id);
      if b == |ram| || Times(|ram[b].pages|, pageSize) != Get(word) then Einval
      else SyncBlocks(pageSize, ram, (total + Power(8) - Get(word) % Power(8)) % Power(8), s2)
  }

  /** Where the page with an index in its block goes; None would be a write outside the block. */
  function Host(ram: Ram, block: Option<nat>, index: nat): Option<Pos> {
    if block.Some? && InRam(ram, Pos(block.value, index)) then Some(Pos(block.value, index)) else None
  }

  function Filled(pageSize: nat, ch: Byte): Page { seq(pageSize, (i: nat) => ch) }

  /** The page of a record.  Only the compressed form checks that the block was found. */
  function ReceivePage(pageSize: nat, r: Recv, flags: nat, index: nat, s: seq<Byte>): (x: Load<(Recv, seq<Byte>)>)
    ensures x.Ok? ==> |x.value.1| <= |s|
  {
    var (block, s1) :- Resolve(r, flags, s);
    if Has(flags, COMPRESS) && block.None? then Einval
    else
      var x := Host(r.ram, block, index);
      if x.None? then Crash
      else
        var (data, s2) :- GetBytes(s1, if Has(flags, COMPRESS) then 1 else pageSize);
        var page := if Has(flags, COMPRESS) then Filled(pageSize, data[0]) else data;
        Ok((Recv(Store(r.ram, x.value, page), block), s2))
  }

  /** A word holds flags below the page size and an address, a multiple of it. */
  function FlagsOf(pageSize: nat, word: nat): nat requires pageSize > 0 { word % pageSize }
  function IndexIn(pageSize: nat, word: nat): nat requires pageSize > 0 { word / pageSize }

  /** One turn of the loop in ram_load. */
  function Turn(pageSize: nat, r: Recv, s: seq<Byte>): (x: Load<(Recv, seq<Byte>, bool)>)
    requires pageSize > 0
    ensures x.Ok? ==> |x.value.1| < |s|
  {
    var (word, s1) :- GetBytes(s, 8);
    var flags, index := FlagsOf(pageSize, Get(word)), IndexIn(pageSize, Get(word));
    var s2 :- if Has(flags, MEM_SIZE) then SyncBlocks(pageSize, r.ram, Times(index, pageSize), s1) else Ok(s1);
    var (r1, s3) :- if Has(flags, COMPRESS) || Has(flags, PAGE) then ReceivePage(pageSize, r, flags, index, s2)
        else Ok((r, s2));
    Ok((r1, s3, Has(flags, EOS)))
  }

  /** ram_load: turns until the end of the section. */
  function RamLoad(pageSize: nat, r: Recv, s: seq<Byte>): Load<(Recv, seq<Byte>)>
    requires pageSize > 0
    decreases |s|
  {
    var (r1, s1, eos) :- Turn(pageSize, r, s);
    if eos then Ok((r1, s1)) else RamLoad(pageSize, r1, s1)
  }
}
