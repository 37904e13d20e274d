/**
 What a rank accepts.  Its four horizons per bank are exactly the distances to the commands it got, and it has a
 row open exactly if one was activated and not closed since.
 */
module DramRankChecks {
  import opened Basics
  import opened DramBanks
  import opened DramScheduling
  import opened DramSchedulerSteps
  import opened DramPipes
  import opened DramRuns
  import opened DramSafety
  import opened DramSpacing
  import opened DramWindows
  import opened DramOrder
  import opened DramData
  import opened DramReads
  import opened DramCrossRank
  import opened DramTheorems

  datatype Goal = ToRead | ToWrite | ToActivate | ToPrecharge

  function Horizon(s: RankBank, g: Goal): int {
    match g
    case ToRead => s.nextRead
    case ToWrite => s.nextWrite
    case ToActivate => s.nextActivate
    case ToPrecharge => s.nextPrecharge
  }

  predicate ActivatesBank(c: Packet, bank: nat) { c.kind == Activate && c.at.bank == bank }

  /** Which commands of the rank the goal has to wait for. */
  predicate Bears(g: Goal, c: Packet, bank: nat) {
    match g
    case ToActivate =>
      c.kind == Activate || c.kind == Refresh
      || (c.at.bank == bank && (c.kind == Precharge || c.kind == ReadP || c.kind == WriteP))
    case ToPrecharge => c.at.bank == bank && (c.kind == Activate || c.kind == Read || c.kind == Write)
    case _ => IsColumn(c.kind) || ActivatesBank(c, bank)
  }

  /** For how long, in the timing parameters. */
  function Distance(p: Params, g: Goal, c: Packet, bank: nat): int
    requires Bears(g, c, bank)
  {
    match g
    case ToActivate =>
      (match c.kind
       case Activate => if c.at.bank == bank then p.tRC else p.tRRD
       case Precharge => p.tRP
       case ReadP => p.AL + p.tRTP + p.tRP
       case WriteP => p.CL + p.AL - 1 + p.BL / 2 + p.tWR + p.tRP
       case _ => p.tRFC)
    case ToPrecharge =>
      (match c.kind
       case Activate => p.tRAS
       case Read => p.AL + p.BL / 2 + Max(p.tRTP, p.tCCD) - p.tCCD
       case _ => p.CL + p.AL - 1 + p.BL / 2 + p.tWR)
    case ToRead =>
      if c.kind == Activate then p.tRCD - p.AL
      else if IsRead(c.kind) then Max(p.tCCD, p.BL / 2) else p.CL + p.AL - 1 + p.BL / 2 + p.tWTR
    case ToWrite =>
      if c.kind == Activate then p.tRCD - p.AL
      else if IsRead(c.kind) then 1 + p.BL / 2 + p.tRTRS else Max(p.tCCD, p.BL / 2)
  }

  /** The bank after the commands its rank got, each with the time of its arrival. */
  ghost function BankAfter(p: Params, got: seq<Issued>, bank: nat): RankBank {
    if got == [] then FreshRankBank
    else
      var n := |got| - 1;
      ReceiveBank(p, BankAfter(p, got[..n], bank), bank, got[n].cmd, got[n].time)
  }

  /** A command still counts: its bank was not activated since, nor, for an activate, the rank refreshed. */
  ghost predicate Counts(got: seq<Issued>, i: int, g: Goal, bank: nat) {
    && 0 <= i < |got| && Bears(g, got[i].cmd, bank)
    && forall k ::
       i < k < |got| ==> !ActivatesBank(got[k].cmd, bank) && (g == ToActivate ==> got[k].cmd.kind != Refresh)
  }

  /** The goal keeps its distance from every command that counts. */
  ghost predicate Kept(p: Params, got: seq<Issued>, g: Goal, bank: nat, now: int) {
    forall i :: Counts(got, i, g, bank) ==> now - got[i].time >= Distance(p, g, got[i].cmd, bank)
  }

  /** What one command does to a horizon. */
  lemma ReceiveHorizon(p: Params, s: RankBank, bank: nat, c: Packet, now: int, g: Goal)
    ensures var h, h' := Horizon(s, g), Horizon(ReceiveBank(p, s, bank, c, now), g);
            if !Bears(g, c, bank) then h' == h
            else if ActivatesBank(c, bank) || (g == ToActivate && c.kind == Refresh)
                then h' == now + Distance(p, g, c, bank)
            else h' == Max(h, now + Distance(p, g, c, bank))
  {
  }

  lemma {:induction false} HorizonExact(p: Params, got: seq<Issued>, bank: nat, g: Goal, now: int)
    requires now >= 0
    ensures now >= Horizon(BankAfter(p, got, bank), g) <==> Kept(p, got, g, bank, now)
  {
    hide ReceiveBank, Distance, Bears;
    if got != [] {
      var n := |got| - 1;
      var c, was := got[n].cmd, got[..n];
      HorizonExact(p, was, bank, g, now);
      ReceiveHorizon(p, BankAfter(p, was, bank), bank, c, got[n].time, g);
      var over := ActivatesBank(c, bank) || (g == ToActivate && c.kind == Refresh);
      assert forall i :: 0 <= i < n ==> was[i] == got[i];
      assert forall i :: 0 <= i < n ==> (Counts(got, i, g, bank) <==> !over && Counts(was, i, g, bank));
      assert Counts(got, n, g, bank) <==> Bears(g, c, bank);
      OverBears(g, c, bank);
    }
  }

  lemma OverBears(g: Goal, c: Packet, bank: nat)
    ensures ActivatesBank(c, bank) || (g == ToActivate && c.kind == Refresh) ==> Bears(g, c, bank)
  {
  }

  // Open rows.

  predicate ClosesBank(c: Packet, bank: nat) {
    c.at.bank == bank && (c.kind == Precharge || c.kind == ReadP || c.kind == WriteP)
  }

  /** The k-th command opened the row that is open now. */
  ghost predicate OpenSince(got: seq<Issued>, k: int, bank: nat) {
    && 0 <= k < |got| && ActivatesBank(got[k].cmd, bank)
    && forall i :: k < i < |got| ==> !ActivatesBank(got[i].cmd, bank) && !ClosesBank(got[i].cmd, bank)
  }

  /** The same, from the commands before the last one and the last one. */
  ghost predicate OpenLast(got: seq<Issued>, k: int, bank: nat)
    requires got != []
  {
    var n := |got| - 1;
    var c := got[n].cmd;
    if k == n then ActivatesBank(c, bank)
    else OpenSince(got[..n], k, bank) && !ActivatesBank(c, bank) && !ClosesBank(c, bank)
  }

  lemma OpenSnoc(got: seq<Issued>, k: int, bank: nat)
    requires got != []
    ensures OpenSince(got, k, bank) <==> OpenLast(got, k, bank)
  {
    hide ActivatesBank, ClosesBank;
    var n := |got| - 1;
    assert forall i :: 0 <= i < n ==> got[..n][i] == got[i];
  }

  lemma OpenInside(got: seq<Issued>, k: int, bank: nat)
    ensures OpenSince(got, k, bank) ==> 0 <= k < |got|
  {
  }

  lemma {:induction false} OpenExact(p: Params, got: seq<Issued>, bank: nat, row: nat)
    ensures BankAfter(p, got, bank).open <==> exists k :: OpenSince(got, k, bank)
    ensures BankAfter(p, got, bank).open && BankAfter(p, got, bank).row == row
            <==> exists k :: 0 <= k < |got| && OpenSince(got, k, bank) && got[k].cmd.at.row == row
  {
    hide OpenSince;
    forall k { OpenInside(got, k, bank); }
    if got != [] {
      var n := |got| - 1;
      OpenExact(p, got[..n], bank, row);
      forall k { OpenInside(got[..n], k, bank); }
      forall k ensures OpenSince(got, k, bank) <==> OpenLast(got, k, bank) { OpenSnoc(got, k, bank); }
      OpenStep(p, BankAfter(p, got[..n], bank), bank, got[n].cmd, got[n].time);
      assert OpenSince(got, n, bank) <==> ActivatesBank(got[n].cmd, bank);
      forall k | OpenSince(got[..n], k, bank) ensures OpenSince(got, k, bank) <==> OpenLast(got, k, bank) {}
    }
  }

  lemma OpenStep(p: Params, s: RankBank, bank: nat, c: Packet, now: int)
    ensures var s' := ReceiveBank(p, s, bank, c, now);
            if ActivatesBank(c, bank) then s'.open && s'.row == c.at.row
            else s'.row == s.row && (s'.open <==> s.open && !ClosesBank(c, bank))
  {
  }

  /** A rank accepts a command exactly if its row is as the command needs it and every distance is kept. */
  lemma RankAccepts(p: Params, got: seq<Issued>, bank: nat, c: Packet, now: int)
    requires now >= 0
    ensures Legal(BankAfter(p, got, bank), c, now) <==>
            match c.kind
            case Activate => (forall k :: !OpenSince(got, k, bank)) && Kept(p, got, ToActivate, bank, now)
            case Precharge => (exists k :: OpenSince(got, k, bank)) && Kept(p, got, ToPrecharge, bank, now)
            case Refresh => forall k :: !OpenSince(got, k, bank)
            case _ =>
              && (exists k :: 0 <= k < |got| && OpenSince(got, k, bank) && got[k].cmd.at.row == c.at.row)
              && Kept(p, got, if IsRead(c.kind) then ToRead else ToWrite, bank, now)
  {
    hide OpenSince, Kept, BankAfter;
    OpenExact(p, got, bank, c.at.row);
    forall g: Goal { HorizonExact(p, got, bank, g, now); }
  }

  // In a run.

  /** What a rank gets of the commands popped: each one cycle later. */
  ghost function GotBy(log: seq<Issued>, rank: nat): seq<Issued> {
    if log == [] then []
    else
      var e := log[|log| - 1];
      GotBy(log[..|log| - 1], rank) + if e.cmd.at.rank == rank then [Issued(e.time + 1, e.cmd)] else []
  }

  /** All but the command that is still on the bus. */
  ghost function Delivered(log: seq<Issued>, bus: Option<Packet>): seq<Issued> {
    if bus.Some? && log != [] then log[..|log| - 1] else log
  }

  ghost predicate TablesTell(p: Params, m: Mem) {
    && TableGrid(p, m.rows.tables)
    && forall r: nat, b: nat :: InRange(p, r, b) ==>
         m.rows.tables[r][b] == BankAfter(p, GotBy(Delivered(m.past.log, m.rows.bus), r), b)
  }

  lemma DeliverTells(p: Params, m: Mem)
    requires TablesTell(p, m) && BusLogged(m.past.log, m.rows.bus, m.now)
             && (m.rows.bus.Some? ==> m.rows.bus.value.at.rank < p.ranks)
    ensures var tables := ReceiveAll(p, m.rows.tables, m.rows.bus, m.now);
            && TableGrid(p, tables)
            && forall r: nat, b: nat :: InRange(p, r, b) ==> tables[r][b] == BankAfter(p, GotBy(m.past.log, r), b)
  {
    hide ReceiveBank;
    var tables, log, bus := ReceiveAll(p, m.rows.tables, m.rows.bus, m.now), m.past.log, m.rows.bus;
    forall r: nat, b: nat | InRange(p, r, b) ensures tables[r][b] == BankAfter(p, GotBy(log, r), b) {
      if bus.Some? {
        var got := GotBy(log[..|log| - 1], r);
        assert got + [] == got && (got + [Issued(m.now, bus.value)])[..|got|] == got;
        assert log[|log| - 1] == Issued(m.now - 1, bus.value);
        if bus.value.at.rank == r { assert GotBy(log, r) == got + [Issued(m.now, bus.value)]; }
      }
    }
  }

  lemma CycleTells(p: Params, m: Mem, refresh: Option<nat>, pick: Pick)
    requires Sane(p) && Placed(p) && Consistent(p, m) && CycleAllowed(p, m, refresh, pick) && TablesTell(p, m)
    ensures TablesTell(p, Cycle(p, m, refresh, pick))
  {
    hide Sane, Placed, SpacingOk, WindowsOk, OrderOk, ReadPipesOk, ReadsOk, CrossOk, CycleAllowed, Cycle, SchedOk,
      AllAgree, Traced, TickAll, ReceiveAll, CommandOf, GotBy, BankAfter;
    CycleBanks(p, m, refresh, pick);
    CycleBack(p, m, refresh, pick);
    BusRange(p, m.rows, m.now);
    DeliverTells(p, m);
    var m' := Cycle(p, m, refresh, pick);
    assert m'.past.log != m.past.log ==> m'.past.log[..|m'.past.log| - 1] == m.past.log;
  }

  lemma {:induction false} RunTells(p: Params, m: Mem, es: seq<Event>, z: Mem)
    requires Sane(p) && Placed(p) && Consistent(p, m) && TablesTell(p, m) && Run(p, m, es, z)
    ensures TablesTell(p, z)
    decreases |es|
  {
    hide Sane, Placed, Consistent, CycleAllowed, Cycle, BankAfter, GotBy, Delivered;
    if es != [] {
      StepConsistent(p, m, es[0]);
      if es[0].Clock? { CycleTells(p, m, es[0].refresh, es[0].pick); }
      RunTells(p, Next(p, m, es[0]), es[1..], z);
    }
  }

  /** In every run the table of a rank is the one that the commands it got leave behind. */
  lemma RankTableTells(p: Params, start: Mem, es: seq<Event>, m: Mem, rank: nat, bank: nat)
    requires Sane(p) && Reaches(p, start, es, m) && InRange(p, rank, bank)
    ensures rank < |m.rows.tables| && bank < |m.rows.tables[rank]|
    ensures m.rows.tables[rank][bank] == BankAfter(p, GotBy(Delivered(m.past.log, m.rows.bus), rank), bank)
  {
    hide Sane, Placed, Consistent, Run;
    FreshConsistent(p, start);
    RunTells(p, start, es, m);
  }
}
