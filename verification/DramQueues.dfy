/**
 One command queue of DRAMSim2.  Commands enter as an activate followed by its column command; the
 scheduler may take the activate alone, the column alone once its activate is gone, or drop the
 activate and take the column when the row is open already.
 */
module DramQueues {
  import opened Basics
  import opened DramBanks

  type Queue = seq<Packet>

  /** Every activate is directly followed by its own column command. */
  ghost predicate Paired(q: Queue) {
    forall i :: 0 <= i < |q| && q[i].kind == Activate ==> PairAt(q, i)
  }

  ghost predicate PairAt(q: Queue, i: nat) {
    i + 1 < |q| && IsColumn(q[i + 1].kind) && q[i + 1] == q[i].(kind := q[i + 1].kind)
  }

  /** A column command whose activate is gone. */
  ghost predicate Loose(q: Queue, i: int) {
    0 <= i < |q| && IsColumn(q[i].kind) && (i > 0 ==> q[i - 1].kind != Activate)
  }

  ghost predicate FirstOfBank(q: Queue, i: int)
    requires 0 <= i < |q|
  {
    forall j :: 0 <= j < i ==> q[j].at.bank != q[i].at.bank
  }

  /** The bank holds the row open and is not about to close it. */
  predicate OpenAt(s: BankState, row: nat) { s.state == RowActive && s.countdown == 0 && s.row == row }

  ghost predicate Homed(p: Params, q: Queue, rank: nat, queueBank: nat) {
    forall i :: 0 <= i < |q| ==> HomedPacket(p, q[i], rank, queueBank)
  }

  ghost predicate HomedPacket(p: Params, c: Packet, rank: nat, queueBank: nat) {
    && (c.kind == Activate || IsColumn(c.kind)) && InPolicy(p, c.kind)
    && c.at == p.place(c.addr) && c.at.rank == rank && c.at.bank < p.banks && (p.perBank ==> c.at.bank == queueBank)
  }

  /** No stranded column: a loose column is the first of its bank, and its row is open. */
  ghost predicate NotStranded(q: Queue, row: seq<BankState>, counters: seq<nat>) {
    forall i :: Loose(q, i) ==>
      && FirstOfBank(q, i) && q[i].at.bank < |row| && q[i].at.bank < |counters|
      && OpenAt(row[q[i].at.bank], q[i].at.row) && counters[q[i].at.bank] == 0
  }

  // What can be removed.

  /** The three ways a packet leaves the queue. */
  ghost predicate Removable(q: Queue, i: int, absorb: bool) {
    && 0 <= i < |q|
    && if absorb then i > 0 && q[i - 1].kind == Activate && IsColumn(q[i].kind) && FirstOfRow(q, i)
       else if q[i].kind == Activate then FirstOfBank(q, i)
       else Loose(q, i)
  }

  /** No earlier column command goes to the same bank and row. */
  ghost predicate FirstOfRow(q: Queue, i: int)
    requires 0 <= i < |q|
  {
    forall j :: 0 <= j < i && q[j].kind != Activate ==> q[j].at.bank != q[i].at.bank || q[j].at.row != q[i].at.row
  }

  function Removed(q: Queue, i: nat, absorb: bool): (r: Queue)
    requires i < |q| && (absorb ==> i > 0)
    ensures absorb ==>
            |r| == |q| - 2 && (forall j :: 0 <= j < i - 1 ==> r[j] == q[j])
            && (forall j :: i - 1 <= j < |r| ==> r[j] == q[j + 2])
    ensures !absorb ==>
            |r| == |q| - 1 && (forall j :: 0 <= j < i ==> r[j] == q[j])
            && (forall j :: i <= j < |r| ==> r[j] == q[j + 1])
  {
    if absorb then q[..i - 1] + q[i + 1..] else q[..i] + q[i + 1..]
  }

  lemma RemovedPaired(q: Queue, i: nat, absorb: bool)
    requires Paired(q) && Removable(q, i, absorb)
    ensures Paired(Removed(q, i, absorb))
  {
    var r := Removed(q, i, absorb);
    forall j | 0 <= j < |r| && r[j].kind == Activate ensures PairAt(r, j) {
      var j0 := if absorb then (if j < i - 1 then j else j + 2) else (if j < i then j else j + 1);
      assert q[j0] == r[j] && PairAt(q, j0);
    }
  }

  lemma AbsorbedLoose(q: Queue, i: nat, k: nat)
    requires Paired(q) && Removable(q, i, true) && Loose(Removed(q, i, true), k)
    ensures var k0 := if k < i - 1 then k else k + 2;
            Loose(q, k0) && q[k0] == Removed(q, i, true)[k] && k0 != i
                && (FirstOfBank(q, k0) ==> FirstOfBank(Removed(q, i, true), k))
  {
    assert PairAt(q, i - 1);
  }

  lemma ActivatedLoose(q: Queue, i: nat, k: nat)
    requires Paired(q) && Removable(q, i, false) && q[i].kind == Activate && Loose(Removed(q, i, false), k)
    ensures var r := Removed(q, i, false);
            if k == i then r[k] == q[i].(kind := r[k].kind) && FirstOfBank(r, k)
            else
              var k0 := if k < i then k else k + 1;
              Loose(q, k0) && q[k0] == r[k] && k0 != i && (FirstOfBank(q, k0) ==> FirstOfBank(r, k))
  {
    assert PairAt(q, i);
  }

  lemma IssuedLoose(q: Queue, i: nat, k: nat)
    requires Paired(q) && Removable(q, i, false) && q[i].kind != Activate && Loose(Removed(q, i, false), k)
    ensures var k0 := if k < i then k else k + 1;
            Loose(q, k0) && q[k0] == Removed(q, i, false)[k] && k0 != i
                && (FirstOfBank(q, k0) ==> FirstOfBank(Removed(q, i, false), k))
  {
  }

  /** Where a loose column of the remaining queue comes from. */
  lemma RemovedLoose(q: Queue, i: nat, absorb: bool, k: nat)
    requires Paired(q) && Removable(q, i, absorb) && Loose(Removed(q, i, absorb), k)
    ensures var r := Removed(q, i, absorb);
            if !absorb && q[i].kind == Activate && k == i then r[k] == q[i].(kind := r[k].kind) && FirstOfBank(r, k)
            else
              var k0 := if absorb then (if k < i - 1 then k else k + 2) else (if k < i then k else k + 1);
              Loose(q, k0) && q[k0] == r[k] && k0 != i && (FirstOfBank(q, k0) ==> FirstOfBank(r, k))
  {
    hide Paired, FirstOfBank, FirstOfRow;
    if absorb { AbsorbedLoose(q, i, k); } else if q[i].kind == Activate {
      ActivatedLoose(q, i, k);
    } else {
      IssuedLoose(q, i, k);
    }
  }

  lemma RemovedStranded(q: Queue, i: nat, absorb: bool, row: seq<BankState>, counters: seq<nat>, row': seq<BankState>,
      counters': seq<nat>)
    requires Paired(q) && Removable(q, i, absorb) && NotStranded(q, row, counters) && |row'| == |row|
             && |counters'| == |counters|
    requires absorb ==> q[i].at.bank < |row| && row[q[i].at.bank].row == q[i].at.row
    requires !absorb && q[i].kind == Activate ==>
               q[i].at.bank < |row| && q[i].at.bank < |counters| && OpenAt(row'[q[i].at.bank], q[i].at.row)
                   && counters'[q[i].at.bank] == 0
    requires forall b :: 0 <= b < |row| && b < |counters| && b != q[i].at.bank && row[b].state == RowActive ==>
               row'[b].state == RowActive && row'[b].countdown == row[b].countdown && row'[b].row == row[b].row
                   && counters'[b] == counters[b]
    ensures NotStranded(Removed(q, i, absorb), row', counters')
  {
    var r := Removed(q, i, absorb);
    forall k | Loose(r, k)
      ensures FirstOfBank(r, k) && r[k].at.bank < |row'| && r[k].at.bank < |counters'|
              && OpenAt(row'[r[k].at.bank], r[k].at.row) && counters'[r[k].at.bank] == 0
    {
      RemovedLoose(q, i, absorb, k);
      LooseElsewhere(q, i, absorb, row, counters, k);
    }
  }

  /** A loose column that stays is in another bank than the packet that goes. */
  lemma LooseElsewhere(q: Queue, i: nat, absorb: bool, row: seq<BankState>, counters: seq<nat>, k: nat)
    requires Paired(q) && Removable(q, i, absorb) && NotStranded(q, row, counters) && Loose(Removed(q, i, absorb), k)
    requires absorb ==> q[i].at.bank < |row| && row[q[i].at.bank].row == q[i].at.row
    ensures !(!absorb && q[i].kind == Activate && k == i) ==> Removed(q, i, absorb)[k].at.bank != q[i].at.bank
  {
    RemovedLoose(q, i, absorb, k);
    if !(!absorb && q[i].kind == Activate && k == i) {
      var k0 := if absorb then (if k < i - 1 then k else k + 2) else (if k < i then k else k + 1);
      assert FirstOfBank(q, k0);
      if absorb { assert PairAt(q, i - 1); }
    }
  }
}
