/**
 The bank states of DRAMSim2.  The memory controller keeps one table for all ranks; every rank keeps
 its own table, which sees each command one cycle later and refuses an illegal one.
 */
module DramBanks {

  /** Where an address lives. */
  datatype Place = Place(rank: nat, bank: nat, row: nat)

  datatype Params = Params(openPage: bool, perBank: bool, rankFirst: bool, ranks: nat, banks: nat,
                           queueDepth: nat, rowAccesses: nat,
                           CL: nat, AL: nat, BL: nat, tRAS: nat, tRCD: nat, tRRD: nat, tRC: nat, tRP: nat, tCCD: nat,
                           tRTP: nat, tWTR: nat, tWR: nat, tRTRS: nat, tRFC: nat, tFAW: nat, place: nat -> Place)

  function Max(a: int, b: int): int { if a < b then b else a }
  function Min(a: int, b: int): int { if a < b then a else b }

  function RL(p: Params): int { p.CL + p.AL }
  function WL(p: Params): int { RL(p) - 1 }
  function Burst(p: Params): int { p.BL / 2 }
  function ReadToPre(p: Params): int { p.AL + Burst(p) + Max(p.tRTP, p.tCCD) - p.tCCD }
  function WriteToPre(p: Params): int { WL(p) + Burst(p) + p.tWR }
  function ReadToWrite(p: Params): int { RL(p) + Burst(p) + p.tRTRS - WL(p) }
  function ReadAutoPre(p: Params): int { p.AL + p.tRTP + p.tRP }
  function WriteAutoPre(p: Params): int { WL(p) + Burst(p) + p.tWR + p.tRP }
  function WriteToReadBank(p: Params): int { WL(p) + Burst(p) + p.tWTR }
  function WriteToReadRank(p: Params): int { WL(p) + Burst(p) + p.tRTRS - RL(p) }
  function ColumnGap(p: Params): int { Max(p.tCCD, Burst(p)) }

  /** What the parameters must satisfy for the unsigned arithmetic and the state machine to make sense. */
  ghost predicate Sane(p: Params) {
    && p.ranks >= 1 && p.banks >= 1 && p.rowAccesses >= 1
    && p.BL >= 2 && WL(p) >= 1 && p.AL <= p.tRCD && p.tFAW >= 1
    && ReadToPre(p) <= ReadAutoPre(p)
    && forall a: nat :: p.place(a).rank < p.ranks && p.place(a).bank < p.banks
  }

  datatype Kind = Read | ReadP | Write | WriteP | Activate | Precharge | Refresh

  /** `txn` numbers the transactions; an activate carries the number of its column command. */
  datatype Packet = Packet(kind: Kind, addr: nat, at: Place, txn: nat)

  predicate IsRead(k: Kind) { k == Read || k == ReadP }
  predicate IsWrite(k: Kind) { k == Write || k == WriteP }
  predicate IsColumn(k: Kind) { IsRead(k) || IsWrite(k) }

  // The controller's table.

  datatype Status = Idle | RowActive | Precharging | Refreshing

  datatype BankState = BankState(state: Status, row: nat, last: Kind, countdown: int,
                                 nextRead: int, nextWrite: int, nextActivate: int, nextPrecharge: int)

  const FreshBank := BankState(Idle, 0, Read, 0, 0, 0, 0, 0)

  function TickBank(p: Params, s: BankState): BankState {
    if s.countdown <= 0 then s
    else if s.countdown > 1 then s.(countdown := s.countdown - 1)
    else
      match s.last
      case WriteP => s.(state := Precharging, last := Precharge, countdown := p.tRP)
      case ReadP => s.(state := Precharging, last := Precharge, countdown := p.tRP)
      case Refresh => s.(state := Idle, countdown := 0)
      case Precharge => s.(state := Idle, countdown := 0)
      case _ => s.(countdown := 0)
  }

  /** The bank's own columns after a read or write of its rank, or of another rank. */
  function AfterRead(p: Params, s: BankState, sameRank: bool, now: int): BankState {
    if sameRank then
      s.(nextRead := Max(now + ColumnGap(p), s.nextRead), nextWrite := Max(now + ReadToWrite(p), s.nextWrite))
    else if s.state == RowActive then
      s.(nextRead := Max(now + Burst(p) + p.tRTRS, s.nextRead), nextWrite := Max(now + ReadToWrite(p), s.nextWrite))
    else s
  }

  function AfterWrite(p: Params, s: BankState, sameRank: bool, now: int): BankState {
    if sameRank then
      s.(nextWrite := Max(now + ColumnGap(p), s.nextWrite), nextRead := Max(now + WriteToReadBank(p), s.nextRead))
    else if s.state == RowActive then
      s.(nextWrite := Max(now + Burst(p) + p.tRTRS, s.nextWrite), nextRead := Max(now + WriteToReadRank(p), s.nextRead))
    else s
  }

  /** What popping a command does to the bank (rank, bank) of the controller's table. */
  function IssueBank(p: Params, s: BankState, rank: nat, bank: nat, c: Packet, now: int): BankState {
    var mine := rank == c.at.rank && bank == c.at.bank;
    match c.kind
    case Read =>
      var s1 := if mine then s.(nextPrecharge := Max(now + ReadToPre(p), s.nextPrecharge), last := Read) else s;
      AfterRead(p, s1, rank == c.at.rank, now)
    case ReadP =>
      if mine then
        var n := Max(now + ReadAutoPre(p), s.nextActivate);
        s.(nextActivate := n, nextRead := n, nextWrite := n, last := ReadP, countdown := ReadToPre(p))
      else AfterRead(p, s, rank == c.at.rank, now)
    case Write =>
      var s1 := if mine then s.(nextPrecharge := Max(now + WriteToPre(p), s.nextPrecharge), last := Write) else s;
      AfterWrite(p, s1, rank == c.at.rank, now)
    case WriteP =>
      if mine then
        var n := Max(now + WriteAutoPre(p), s.nextActivate);
        s.(nextActivate := n, nextRead := n, nextWrite := n, last := WriteP, countdown := WriteToPre(p))
      else AfterWrite(p, s, rank == c.at.rank, now)
    case Activate =>
      if mine then
        s.(state := RowActive, last := Activate, row := c.at.row,
           nextActivate := Max(now + p.tRC, s.nextActivate), nextPrecharge := Max(now + p.tRAS, s.nextPrecharge),
           nextRead := Max(now + (p.tRCD - p.AL), s.nextRead), nextWrite := Max(now + (p.tRCD - p.AL), s.nextWrite))
      else if rank == c.at.rank then s.(nextActivate := Max(now + p.tRRD, s.nextActivate))
      else s
    case Precharge =>
      if mine then
        s.(state := Precharging, last := Precharge, countdown := p.tRP,
            nextActivate := Max(now + p.tRP, s.nextActivate))
      else s
    case Refresh =>
      if rank == c.at.rank then
        s.(nextActivate := now + p.tRFC, state := Refreshing, last := Refresh, countdown := p.tRFC)
      else s
  }

  /** When the command queue lets a packet go: the bank's own part of the test. */
  predicate BankReady(p: Params, s: BankState, c: Packet, now: int) {
    match c.kind
    case Activate => (s.state == Idle || s.state == Refreshing) && now >= s.nextActivate
    case Precharge => s.state == RowActive && now >= s.nextPrecharge
    case Refresh => s.state != RowActive && now >= s.nextActivate
    case _ => s.state == RowActive && s.row == c.at.row && now >= (if IsRead(c.kind) then s.nextRead else s.nextWrite)
  }

  // A rank's table.

  datatype RankBank = RankBank(open: bool, row: nat, nextRead: int, nextWrite: int, nextActivate: int,
      nextPrecharge: int)

  const FreshRankBank := RankBank(false, 0, 0, 0, 0, 0)

  /** The checks of Rank::receiveFromBus; a refresh checks every bank, any other command its own. */
  predicate Legal(s: RankBank, c: Packet, now: int) {
    match c.kind
    case Activate => !s.open && now >= s.nextActivate
    case Precharge => s.open && now >= s.nextPrecharge
    case Refresh => !s.open
    case _ => s.open && s.row == c.at.row && now >= (if IsRead(c.kind) then s.nextRead else s.nextWrite)
  }

  /** What receiving a command does to one bank of the rank it is sent to. */
  function ReceiveBank(p: Params, s: RankBank, bank: nat, c: Packet, now: int): RankBank {
    var mine := bank == c.at.bank;
    match c.kind
    case Read =>
      s.(nextPrecharge := if mine then Max(s.nextPrecharge, now + ReadToPre(p)) else s.nextPrecharge,
         nextRead := Max(s.nextRead, now + ColumnGap(p)), nextWrite := Max(s.nextWrite, now + ReadToWrite(p)))
    case ReadP =>
      s.(open := !mine && s.open, nextActivate := if mine then Max(s.nextActivate, now + ReadAutoPre(p))
          else s.nextActivate,
         nextRead := Max(s.nextRead, now + ColumnGap(p)), nextWrite := Max(s.nextWrite, now + ReadToWrite(p)))
    case Write =>
      s.(nextPrecharge := if mine then Max(s.nextPrecharge, now + WriteToPre(p)) else s.nextPrecharge,
         nextRead := Max(s.nextRead, now + WriteToReadBank(p)), nextWrite := Max(s.nextWrite, now + ColumnGap(p)))
    case WriteP =>
      s.(open := !mine && s.open, nextActivate := if mine then Max(s.nextActivate, now + WriteAutoPre(p))
          else s.nextActivate,
         nextRead := Max(s.nextRead, now + WriteToReadBank(p)), nextWrite := Max(s.nextWrite, now + ColumnGap(p)))
    case Activate =>
      if mine then
        RankBank(true, c.at.row, now + (p.tRCD - p.AL), now + (p.tRCD - p.AL), now + p.tRC, now + p.tRAS)
      else s.(nextActivate := Max(s.nextActivate, now + p.tRRD))
    case Precharge =>
      if mine then s.(open := false, nextActivate := Max(s.nextActivate, now + p.tRP)) else s
    case Refresh => s.(nextActivate := now + p.tRFC)
  }

  // The rank's table simulates the controller's.

  /** What a running countdown of the controller stands for. */
  ghost predicate TimerOk(p: Params, s: BankState, now: int) {
    && s.countdown >= 0
    && (s.countdown > 0 ==>
          match s.state
          case Idle => false
          case RowActive => !p.openPage && (s.last == ReadP || s.last == WriteP)
                            && s.nextRead >= now + s.countdown && s.nextWrite >= now + s.countdown
          case Precharging => s.last == Precharge
          case Refreshing => s.last == Refresh && s.nextActivate >= now + s.countdown)
  }

  /**
   The two tables agree, seen after the command of the last cycle has reached the rank and before the
   next one is popped: the rank has a row open exactly when the controller does and is not already
   precharging it, and no horizon of the rank is more than one cycle behind the controller's.
   */
  ghost predicate Agree(p: Params, s: BankState, k: RankBank, now: int) {
    && TimerOk(p, s, now)
    && (k.open <==> s.state == RowActive && s.countdown == 0)
    && (k.open ==> k.row == s.row && k.nextRead <= s.nextRead + 1 && k.nextWrite <= s.nextWrite + 1
                   && k.nextPrecharge <= s.nextPrecharge + 1)
    && k.nextActivate <= s.nextActivate + 1
  }

  /** The kinds of command a row policy uses. */
  predicate InPolicy(p: Params, k: Kind) {
    match k
    case Read => p.openPage
    case Write => p.openPage
    case Precharge => p.openPage
    case ReadP => !p.openPage
    case WriteP => !p.openPage
    case _ => true
  }

  /** A command concerns a bank when its legality depends on it. */
  predicate Concerns(c: Packet, rank: nat, bank: nat) {
    rank == c.at.rank && (c.kind == Refresh || bank == c.at.bank)
  }

  /** A command the controller finds ready is legal for the rank one cycle later. */
  lemma ReadyIsLegal(p: Params, s: BankState, k: RankBank, c: Packet, now: int)
    requires Sane(p) && Agree(p, s, k, now) && InPolicy(p, c.kind) && BankReady(p, s, c, now)
    ensures Legal(k, c, now + 1)
  {
  }

  ghost function Received(p: Params, k: RankBank, rank: nat, bank: nat, c: Packet, now: int): RankBank {
    if rank == c.at.rank then ReceiveBank(p, k, bank, c, now) else k
  }

  lemma AgreeRead(p: Params, s: BankState, k: RankBank, rank: nat, bank: nat, c: Packet, now: int)
    requires Sane(p) && Agree(p, s, k, now) && InPolicy(p, c.kind) && IsRead(c.kind)
    requires Concerns(c, rank, bank) ==> BankReady(p, s, c, now)
    ensures Agree(p, TickBank(p, IssueBank(p, s, rank, bank, c, now)), Received(p, k, rank, bank, c, now + 1), now + 1)
  {
  }

  lemma AgreeWrite(p: Params, s: BankState, k: RankBank, rank: nat, bank: nat, c: Packet, now: int)
    requires Sane(p) && Agree(p, s, k, now) && InPolicy(p, c.kind) && IsWrite(c.kind)
    requires Concerns(c, rank, bank) ==> BankReady(p, s, c, now)
    ensures Agree(p, TickBank(p, IssueBank(p, s, rank, bank, c, now)), Received(p, k, rank, bank, c, now + 1), now + 1)
  {
  }

  lemma AgreeRow(p: Params, s: BankState, k: RankBank, rank: nat, bank: nat, c: Packet, now: int)
    requires Sane(p) && Agree(p, s, k, now) && InPolicy(p, c.kind) && !IsColumn(c.kind)
    requires Concerns(c, rank, bank) ==> BankReady(p, s, c, now)
    ensures Agree(p, TickBank(p, IssueBank(p, s, rank, bank, c, now)), Received(p, k, rank, bank, c, now + 1), now + 1)
  {
  }

  /** One cycle: the controller issues the command and ticks, the rank receives it, and they agree again. */
  lemma AgreeIssued(p: Params, s: BankState, k: RankBank, rank: nat, bank: nat, c: Packet, now: int)
    requires Sane(p) && Agree(p, s, k, now) && InPolicy(p, c.kind)
    requires Concerns(c, rank, bank) ==> BankReady(p, s, c, now)
    ensures Agree(p, TickBank(p, IssueBank(p, s, rank, bank, c, now)), Received(p, k, rank, bank, c, now + 1), now + 1)
  {
    hide Agree, TickBank, IssueBank, Received, BankReady, Sane;
    if IsRead(c.kind) {
      AgreeRead(p, s, k, rank, bank, c, now);
    } else if IsWrite(c.kind) {
      AgreeWrite(p, s, k, rank, bank, c, now);
    } else {
      AgreeRow(p, s, k, rank, bank, c, now);
    }
  }

  lemma AgreeTicked(p: Params, s: BankState, k: RankBank, now: int)
    requires Sane(p) && Agree(p, s, k, now)
    ensures Agree(p, TickBank(p, s), k, now + 1)
  {
  }
}
