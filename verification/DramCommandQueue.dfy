/**
 CommandQueue as an object: the queues, counters, activate windows and cursors, updated in place.
 `Pop` is proved to make an allowed pick, and to find one whenever there is one.
 */
module DramCommandQueue {
  import opened Arithmetic
  import opened Basics
  import opened RoundRobin
  import opened DramBanks
  import opened DramQueues
  import opened DramScheduling
  import opened DramPipes
  import opened DramRuns

  // The round-robin cursors.

  datatype Cursor = Cursor(rank: nat, bank: nat)

  /** nextRankAndBank. */
  function NextCursor(p: Params, c: Cursor): Cursor {
    if p.rankFirst then
      if c.rank + 1 < p.ranks then Cursor(c.rank + 1, c.bank)
          else Cursor(0, if c.bank + 1 < p.banks then c.bank + 1 else 0)
    else
      if c.bank + 1 < p.banks then Cursor(c.rank, c.bank + 1)
          else Cursor(if c.rank + 1 < p.ranks then c.rank + 1 else 0, 0)
  }

  predicate Inside(p: Params, c: Cursor) { InRange(p, c.rank, c.bank) }

  /** The place of a cursor in the order of the scan. */
  function Index(p: Params, c: Cursor): nat
  {
    if p.rankFirst then c.bank * p.ranks + c.rank else c.rank * p.banks + c.bank
  }

  function Count(p: Params): nat { p.ranks * p.banks }

  lemma Distinct(n: int, q: int, r: int, q': int, r': int)
    requires n > 0 && 0 <= r < n && 0 <= r' < n && q * n + r == q' * n + r'
    ensures q == q' && r == r'
  {
    DivModUnique(q * n + r, n, q, r);
    DivModUnique(q' * n + r', n, q', r');
  }

  lemma IndexInjective(p: Params, c: Cursor, d: Cursor)
    requires Inside(p, c) && Inside(p, d) && Index(p, c) == Index(p, d)
    ensures c == d
  {
    if p.rankFirst {
      Distinct(p.ranks, c.bank, c.rank, d.bank, d.rank);
    } else {
      Distinct(p.banks, c.rank, c.bank, d.rank, d.bank);
    }
  }

  lemma Below(n: int, k: int, q: int, r: int)
    requires n > 0 && 0 <= r < n && 0 <= q < k
    ensures q * n + r < k * n
    ensures (q + 1) * n == q * n + n
    ensures q * n + r + 1 == k * n <==> q + 1 == k && r + 1 == n
  {
    MulAtLeast(k - 1 - q, n);
    assert k * n == q * n + n + (k - 1 - q) * n;
  }

  /** The next cursor is the next place, and the last is followed by the first. */
  lemma IndexNext(p: Params, c: Cursor)
    requires Inside(p, c)
    ensures Inside(p, NextCursor(p, c)) && Index(p, c) < Count(p)
    ensures Index(p, NextCursor(p, c)) == if Index(p, c) + 1 == Count(p) then 0 else Index(p, c) + 1
  {
    if p.rankFirst {
      Below(p.ranks, p.banks, c.bank, c.rank);
      assert Count(p) == p.banks * p.ranks;
    } else {
      Below(p.banks, p.ranks, c.rank, c.bank);
    }
  }

  /** The order in which pop looks at the queues: per rank only the ranks matter. */
  function NextScan(p: Params, c: Cursor): Cursor {
    if p.perBank then NextCursor(p, c) else Cursor(if c.rank + 1 < p.ranks then c.rank + 1 else 0, c.bank)
  }

  function ScanIndex(p: Params, c: Cursor): nat { if p.perBank then Index(p, c) else c.rank }

  function ScanCount(p: Params): nat { if p.perBank then Count(p) else p.ranks }

  lemma ScanNext(p: Params, c: Cursor)
    requires Inside(p, c)
    ensures Inside(p, NextScan(p, c)) && ScanIndex(p, c) < ScanCount(p)
    ensures ScanIndex(p, NextScan(p, c)) == if ScanIndex(p, c) + 1 == ScanCount(p) then 0 else ScanIndex(p, c) + 1
  {
    if p.perBank { IndexNext(p, c); }
  }

  /** Two cursors at the same place of the scan look at the same queue. */
  lemma ScanSame(p: Params, st: Sched, banks: Banks, c: Cursor, d: Cursor, i: nat, now: int)
    requires Wellformed(p, st, banks) && Inside(p, c) && Inside(p, d) && ScanIndex(p, c) == ScanIndex(p, d)
    ensures Candidate(p, st, banks, c.rank, c.bank, i, now) == Candidate(p, st, banks, d.rank, d.bank, i, now)
    ensures c.rank == d.rank
  {
    if p.perBank { IndexInjective(p, c, d); }
  }

  ghost predicate NoCandidate(p: Params, st: Sched, banks: Banks, c: Cursor, now: int)
    requires Wellformed(p, st, banks) && Inside(p, c)
  {
    st.refresh != Some(c.rank) ==> forall i: nat :: !Candidate(p, st, banks, c.rank, c.bank, i, now)
  }

  /** The cursors a scan has passed are all in the set. */
  ghost predicate ScannedTo(p: Params, from: Cursor, at: Cursor, wrapped: bool, seen: iset<Cursor>) {
    forall c: Cursor ::
      Inside(p, c) && Passed(ScanIndex(p, from), ScanIndex(p, at), wrapped, ScanIndex(p, c)) ==> c in seen
  }

  /** The set does not tell apart cursors at the same place of the scan. */
  ghost predicate ByPlace(p: Params, seen: iset<Cursor>) {
    forall c: Cursor, d: Cursor ::
      Inside(p, c) && Inside(p, d) && ScanIndex(p, c) == ScanIndex(p, d) && c in seen ==> d in seen
  }

  /** Where the scan stands: at its start, or past some places and not yet back. */
  ghost predicate OnTheWay(p: Params, from: Cursor, at: Cursor, wrapped: bool) {
    if wrapped then ScanIndex(p, at) < ScanIndex(p, from) else ScanIndex(p, from) <= ScanIndex(p, at)
  }

  /** How many places the scan has still to visit. */
  ghost function Ahead(p: Params, from: Cursor, at: Cursor, wrapped: bool): int {
    if wrapped then ScanIndex(p, from) - ScanIndex(p, at) else ScanCount(p) + ScanIndex(p, from) - ScanIndex(p, at)
  }

  lemma ScanStart(p: Params, from: Cursor, seen: iset<Cursor>)
    ensures ScannedTo(p, from, from, false, seen) && OnTheWay(p, from, from, false)
  {
  }

  ghost function Wraps(p: Params, at: Cursor, wrapped: bool): bool { wrapped || ScanIndex(p, at) + 1 == ScanCount(p) }

  /** One step of a scan; back at its start it has seen every cursor, and it gets there. */
  lemma ScanStep(p: Params, from: Cursor, at: Cursor, wrapped: bool, seen: iset<Cursor>)
    requires Inside(p, from) && Inside(p, at) && ScannedTo(p, from, at, wrapped, seen) && ByPlace(p, seen)
             && at in seen && OnTheWay(p, from, at, wrapped)
    ensures var at', wrapped' := NextScan(p, at), Wraps(p, at, wrapped);
            && Inside(p, at') && ScannedTo(p, from, at', wrapped', seen)
            && (if SamePlace(p, from, at') then forall c: Cursor ::
               Inside(p, c) ==> c in seen else OnTheWay(p, from, at', wrapped'))
            && 0 <= Ahead(p, from, at', wrapped') < Ahead(p, from, at, wrapped)
  {
    hide NextScan, ScanIndex, ScanCount;
    ScanNext(p, from);
    ScanNext(p, at);
    var at', wrapped' := NextScan(p, at), Wraps(p, at, wrapped);
    forall c: Cursor | Inside(p, c)
      ensures Passed(ScanIndex(p, from), ScanIndex(p, at'), wrapped', ScanIndex(p, c)) ==> c in seen
      ensures ScanIndex(p, at') == ScanIndex(p, from) ==> c in seen
    {
      ScanNext(p, c);
      PassedNext(ScanIndex(p, from), ScanIndex(p, at), wrapped, ScanCount(p), ScanIndex(p, c));
    }
    PassedNext(ScanIndex(p, from), ScanIndex(p, at), wrapped, ScanCount(p), ScanIndex(p, from));
    PlaceIndex(p, from, at');
  }

  /** How many steps a scan makes from one cursor to another. */
  function Turn(p: Params, from: Cursor, c: Cursor): int {
    var d := ScanIndex(p, c) - ScanIndex(p, from);
    if d >= 0 then d else d + ScanCount(p)
  }

  lemma TurnPassed(p: Params, from: Cursor, at: Cursor, wrapped: bool, c: Cursor)
    requires Inside(p, from) && Inside(p, at) && Inside(p, c) && OnTheWay(p, from, at, wrapped)
    ensures Turn(p, from, c) < Turn(p, from, at) ==>
              Passed(ScanIndex(p, from), ScanIndex(p, at), wrapped, ScanIndex(p, c))
  {
    hide ScanIndex, ScanCount;
    ScanNext(p, at);
  }

  /** What the scan met first was met before everything else in the set's complement. */
  lemma MetFirst(p: Params, from: Cursor, at: Cursor, wrapped: bool, seen: iset<Cursor>)
    requires Inside(p, from) && Inside(p, at) && OnTheWay(p, from, at, wrapped) && ScannedTo(p, from, at, wrapped, seen)
    ensures forall c: Cursor :: Inside(p, c) && Turn(p, from, c) < Turn(p, from, at) ==> c in seen
  {
    hide OnTheWay, Turn;
    forall c: Cursor | Inside(p, c) && Turn(p, from, c) < Turn(p, from, at) ensures c in seen {
      TurnPassed(p, from, at, wrapped, c);
    }
  }

  /**
   The scan is fair: a queue that is passed over has its turn sooner, as the cursor moves on behind the one that
   was taken.
   */
  lemma PassedOverSooner(p: Params, from: Cursor, at: Cursor, x: Cursor)
    requires p.perBank && Inside(p, from) && Inside(p, at) && Inside(p, x) && Turn(p, from, at) < Turn(p, from, x)
    ensures 0 <= Turn(p, NextCursor(p, at), x) == Turn(p, from, x) - Turn(p, from, at) - 1 < Count(p) - 1
    ensures Turn(p, x, x) == 0
  {
    hide Index, NextCursor;
    IndexNext(p, from);
    IndexNext(p, at);
    IndexNext(p, x);
  }

  /** The test that ends the scan. */
  predicate SamePlace(p: Params, c: Cursor, d: Cursor) { c.rank == d.rank && (p.perBank ==> c.bank == d.bank) }

  lemma PlaceIndex(p: Params, c: Cursor, d: Cursor)
    requires Inside(p, c) && Inside(p, d)
    ensures SamePlace(p, c, d) <==> ScanIndex(p, c) == ScanIndex(p, d)
  {
    if p.perBank && Index(p, c) == Index(p, d) { IndexInjective(p, c, d); }
  }

  lemma SeenByPlace(p: Params, st: Sched, banks: Banks, seen: iset<Cursor>, now: int)
    requires Wellformed(p, st, banks) && seen == iset c: Cursor | Inside(p, c) && NoCandidate(p, st, banks, c, now)
    ensures ByPlace(p, seen)
  {
    hide Candidate, Wellformed;
    forall c: Cursor, d: Cursor | Inside(p, c) && Inside(p, d) && ScanIndex(p, c) == ScanIndex(p, d) && c in seen
      ensures d in seen
    {
      forall i: nat
        ensures Candidate(p, st, banks, c.rank, c.bank, i, now) == Candidate(p, st, banks, d.rank, d.bank, i, now)
      {
        ScanSame(p, st, banks, c, d, i, now);
      }
      ScanSame(p, st, banks, c, d, 0, now);
    }
  }

  lemma PlacesDiffer(p: Params, seen: iset<Cursor>)
    requires p.perBank
    ensures ByPlace(p, seen)
  {
    forall c: Cursor, d: Cursor | Inside(p, c) && Inside(p, d) && ScanIndex(p, c) == ScanIndex(p, d)
      ensures c == d
    {
      IndexInjective(p, c, d);
    }
  }

  lemma ScanBank(p: Params, c: Cursor)
    ensures !p.perBank ==> NextScan(p, c).bank == c.bank
  {
  }

  /** The same for the scan of all banks. */
  ghost function BankTurn(p: Params, from: Cursor, c: Cursor): int { Turn(p.(perBank := true), from, c) }

  lemma BankScan(p: Params, c: Cursor)
    ensures NextScan(p.(perBank := true), c) == NextCursor(p, c)
  {
  }

  /** The row of the bank is still wanted, and may be used again, if it could be closed at all. */
  ghost predicate RowsKept(p: Params, st: Sched, banks: Banks, c: Cursor, now: int)
    requires Wellformed(p, st, banks) && Inside(p, c)
  {
    var q, s := QueueAt(p, st, c.rank, c.bank), banks[c.rank][c.bank];
    p.openPage && s.state == RowActive && now >= s.nextPrecharge ==>
      FirstForRow(q, c.bank, s.row, 0) < |q| && st.counters[c.rank][c.bank] != p.rowAccesses
  }

  /** The pick was left to the scans: no refresh waits, or it asks for nothing now. */
  ghost predicate Scanned(p: Params, st: Sched, banks: Banks, now: int)
    requires Wellformed(p, st, banks)
  {
    st.refresh == None || RefreshPick(p, st, banks, now) == Nothing
  }

  /** The scan takes from the first queue, in its order from the cursor on, that has something to take. */
  ghost predicate ScanPick(p: Params, st: Sched, banks: Banks, pick: Pick, from: Cursor, now: int)
    requires Wellformed(p, st, banks)
  {
    pick.Take? && Scanned(p, st, banks, now) ==>
      forall c: Cursor :: Inside(p, c) && Turn(p, from, c) < Turn(p, from, Cursor(pick.rank, pick.bank)) ==>
        NoCandidate(p, st, banks, c, now)
  }

  /** And it closes the first row, in its order from the other cursor on, that can be closed. */
  ghost predicate ClosePick(p: Params, st: Sched, banks: Banks, pick: Pick, from: Cursor, now: int)
    requires Wellformed(p, st, banks)
  {
    pick.Close? && Scanned(p, st, banks, now) ==>
      forall c: Cursor :: Inside(p, c) && BankTurn(p, from, c) < BankTurn(p, from, Cursor(pick.rank, pick.bank)) ==>
        RowsKept(p, st, banks, c, now)
  }

  class CommandQueue {
    const p: Params
    var queues: seq<seq<Queue>>
    var counters: seq<seq<nat>>
    var faw: seq<seq<int>>
    var refresh: Option<nat>
    var next: Cursor
    var nextPre: Cursor
    var sendAct: bool

    ghost function State(): Sched reads this { Sched(queues, counters, faw, refresh) }

    ghost predicate Fits(banks: Banks)
      reads this
    {
      Wellformed(p, State(), banks) && Inside(p, next) && Inside(p, nextPre)
    }

    /** Empty queues, zero counters and empty windows. */
    ghost predicate Started() reads this {
      && Shaped(p, State()) && refresh == None
      && (forall r: nat, k: nat :: r < p.ranks && k < QueuesPerRank(p) ==> queues[r][k] == [])
      && (forall r: nat, b: nat :: InRange(p, r, b) ==> counters[r][b] == 0)
      && (forall r: nat :: r < p.ranks ==> faw[r] == [])
    }

    constructor (p: Params)
      requires Sane(p)
      ensures this.p == p && Inside(p, next) && Inside(p, nextPre) && Started()
    {
      this.p := p;
      queues := seq(p.ranks, (r: nat) => seq(QueuesPerRank(p), (k: nat) => []));
      counters := seq(p.ranks, (r: nat) => seq(p.banks, (b: nat) => 0));
      faw := seq(p.ranks, (r: nat) => []);
      refresh, next, nextPre, sendAct := None, Cursor(0, 0), Cursor(0, 0), true;
    }

    method NeedRefresh(rank: nat)
      modifies `refresh
      ensures refresh == Some(rank)
    {
      refresh := Some(rank);
    }

    method HasRoomFor(n: nat, rank: nat, bank: nat) returns (r: bool)
      requires Shaped(p, State()) && InRange(p, rank, bank)
      ensures r == (|QueueAt(p, State(), rank, bank)| + n <= p.queueDepth)
    {
      r := |queues[rank][if p.perBank then bank else 0]| + n <= p.queueDepth;
    }

    /** False where the source reports an overflow and exits. */
    method Enqueue(c: Packet) returns (ok: bool)
      requires Shaped(p, State()) && InRange(p, c.at.rank, c.at.bank)
      modifies `queues
      ensures State() == WithQueue(p, old(State()), c.at.rank, c.at.bank,
              QueueAt(p, old(State()), c.at.rank, c.at.bank) + [c])
      ensures ok == (|QueueAt(p, State(), c.at.rank, c.at.bank)| <= p.queueDepth)
    {
      var k := if p.perBank then c.at.bank else 0;
      queues := queues[c.at.rank := queues[c.at.rank][k := queues[c.at.rank][k] + [c]]];
      ok := |queues[c.at.rank][k]| <= p.queueDepth;
    }

    /** Every countdown decreases; the head is dropped when it reaches zero. */
    method TickFaw()
      requires Shaped(p, State())
      modifies `faw
      ensures faw == TickWindows(old(faw))
    {
      for i := 0 to p.ranks
        invariant |faw| == p.ranks
        invariant forall r :: 0 <= r < i ==> faw[r] == TickWindow(old(faw)[r])
        invariant forall r :: i <= r < p.ranks ==> faw[r] == old(faw)[r]
      {
        var w := CountDown(faw[i]);
        if |w| > 0 && w[0] == 0 { w := w[1..]; }
        faw := faw[i := w];
      }
    }

    method IsIssuable(banks: Banks, c: Packet, now: int) returns (r: bool)
      requires Shaped(p, State()) && GridOf(p, banks) && InRange(p, c.at.rank, c.at.bank)
      ensures r == Issuable(p, State(), banks, c, now)
    {
      var s := banks[c.at.rank][c.at.bank];
      match c.kind
      case Activate => r := (s.state == Idle || s.state == Refreshing) && now >= s.nextActivate && |faw[c.at.rank]| < 4;
      case Precharge => r := s.state == RowActive && now >= s.nextPrecharge;
      case Refresh => r := false;
      case _ =>
        r := s.state == RowActive && now >= (if IsRead(c.kind) then s.nextRead else s.nextWrite) && c.at.row == s.row
             && counters[c.at.rank][c.at.bank] < p.rowAccesses;
    }

    static method HasDependency(q: Queue, i: nat) returns (r: bool)
      requires i < |q|
      ensures r == Depends(q, i)
    {
      for j := 0 to i
        invariant forall k ::
                  0 <= k < j ==> q[k].kind == Activate || q[k].at.bank != q[i].at.bank || q[k].at.row != q[i].at.row
      {
        if q[j].kind != Activate && q[j].at.bank == q[i].at.bank && q[j].at.row == q[i].at.row { return true; }
      }
      return false;
    }

    /** The search of one queue for its first candidate. */
    method FindCandidate(banks: Banks, rank: nat, bank: nat, now: int) returns (found: bool, i: nat)
      requires Wellformed(p, State(), banks) && InRange(p, rank, bank)
      ensures found ==> Candidate(p, State(), banks, rank, bank, i, now)
      ensures found ==> forall j: nat :: j < i ==> !Candidate(p, State(), banks, rank, bank, j, now)
      ensures !found ==> forall j: nat :: !Candidate(p, State(), banks, rank, bank, j, now)
    {
      hide Issuable;
      var q := queues[rank][if p.perBank then bank else 0];
      assert QueueInRange(p, q);
      found, i := false, 0;
      while i < |q|
        invariant i <= |q| && forall j: nat :: j < i ==> !Candidate(p, State(), banks, rank, bank, j, now)
      {
        var ready := IsIssuable(banks, q[i], now);
        if ready {
          var skip := false;
          if p.openPage {
            skip := HasDependency(q, i);
          } else if p.perBank {
            skip := i > 0;
          } else {
            skip := i > 0 && q[i - 1].kind == Activate && q[i - 1].addr == q[i].addr;
          }
          if !skip {
            found := true;
            return;
          }
        }
        i := i + 1;
      }
    }

    /** A queue is passed over while its rank waits for a refresh. */
    method LookAt(banks: Banks, c: Cursor, now: int) returns (found: bool, i: nat)
      requires Wellformed(p, State(), banks) && Inside(p, c)
      ensures found ==> refresh != Some(c.rank) && Candidate(p, State(), banks, c.rank, c.bank, i, now)
                        && forall j: nat :: j < i ==> !Candidate(p, State(), banks, c.rank, c.bank, j, now)
      ensures !found ==> NoCandidate(p, State(), banks, c, now)
    {
      hide Candidate, Wellformed;
      found, i := false, 0;
      if refresh != Some(c.rank) { found, i := FindCandidate(banks, c.rank, c.bank, now); }
    }

    /** The round robin over the queues: the first candidate it meets, or none in any queue. */
    method FindPacket(banks: Banks, now: int) returns (found: bool, i: nat)
      requires Fits(banks)
      modifies `next
      ensures Inside(p, next)
      ensures found ==> refresh != Some(next.rank) && Candidate(p, State(), banks, next.rank, next.bank, i, now)
                        && forall j: nat :: j < i ==> !Candidate(p, State(), banks, next.rank, next.bank, j, now)
      ensures found ==> forall c: Cursor :: Inside(p, c) && Turn(p, old(next), c) < Turn(p, old(next), next) ==>
                NoCandidate(p, State(), banks, c, now)
      ensures !found ==>
              next == old(next) && forall c: Cursor :: Inside(p, c) ==> NoCandidate(p, State(), banks, c, now)
    {
      hide Candidate, Issuable, NextScan, Wellformed, NoCandidate, ScannedTo, OnTheWay, Ahead, ByPlace, Wraps, Turn;
      var start := next;
      ghost var wrapped, st := false, State();
      ghost var seen := iset c: Cursor | Inside(p, c) && NoCandidate(p, st, banks, c, now);
      found, i := false, 0;
      ScanStart(p, start, seen);
      SeenByPlace(p, st, banks, seen, now);
      var done := false;
      while !done
        invariant Inside(p, next) && State() == st && !found && (!p.perBank ==> next.bank == start.bank)
        invariant !done ==> ScannedTo(p, start, next, wrapped, seen) && OnTheWay(p, start, next, wrapped)
        invariant done ==> SamePlace(p, start, next)
        invariant done ==> forall c: Cursor :: Inside(p, c) ==> c in seen
        decreases !done, Ahead(p, start, next, wrapped)
      {
        found, i := LookAt(banks, next, now);
        if found {
          MetFirst(p, start, next, wrapped, seen);
          return;
        }
        ScanStep(p, start, next, wrapped, seen);
        ScanBank(p, next);
        wrapped := Wraps(p, next, wrapped);
        next := NextScan(p, next);
        done := SamePlace(p, start, next);
      }
    }

    /** The round robin over the banks for a row that nothing needs any more, or that was used often enough. */
    method FindClosable(banks: Banks, now: int) returns (found: bool)
      requires Fits(banks) && p.openPage
      modifies `nextPre
      ensures Inside(p, nextPre)
      ensures found ==> Closable(p, State(), banks, nextPre.rank, nextPre.bank, now)
                        && Unwanted(p, State(), banks, nextPre.rank, nextPre.bank)
      ensures found ==>
              forall c: Cursor :: Inside(p, c) && BankTurn(p, old(nextPre), c) < BankTurn(p, old(nextPre), nextPre) ==>
                RowsKept(p, State(), banks, c, now)
      ensures !found ==>
              nextPre == old(nextPre) && forall c: Cursor :: Inside(p, c) ==> RowsKept(p, State(), banks, c, now)
    {
      hide Issuable, NextScan, Wellformed, ScannedTo, OnTheWay, Ahead, ByPlace, Wraps, Closable, RowsKept, NextCursor,
        Unwanted, Turn;
      var start := nextPre;
      ghost var p1 := p.(perBank := true);
      ghost var wrapped, st := false, State();
      ghost var seen := iset c: Cursor | Inside(p, c) && RowsKept(p, st, banks, c, now);
      found := false;
      ScanStart(p1, start, seen);
      PlacesDiffer(p1, seen);
      var done := false;
      while !done
        invariant Inside(p, nextPre) && State() == st && !found
        invariant !done ==> ScannedTo(p1, start, nextPre, wrapped, seen) && OnTheWay(p1, start, nextPre, wrapped)
        invariant done ==> start == nextPre
        invariant done ==> forall c: Cursor :: Inside(p, c) ==> c in seen
        decreases !done, Ahead(p1, start, nextPre, wrapped)
      {
        found := MayClose(banks, nextPre, now);
        if found {
          MetFirst(p1, start, nextPre, wrapped, seen);
          return;
        }
        ScanStep(p1, start, nextPre, wrapped, seen);
        BankScan(p, nextPre);
        wrapped := Wraps(p1, nextPre, wrapped);
        nextPre := NextCursor(p, nextPre);
        done := start == nextPre;
      }
    }

    method MayClose(banks: Banks, c: Cursor, now: int) returns (r: bool)
      requires Wellformed(p, State(), banks) && Inside(p, c) && p.openPage
      ensures r ==> Closable(p, State(), banks, c.rank, c.bank, now)
                    && Unwanted(p, State(), banks, c.rank, c.bank)
      ensures !r ==> RowsKept(p, State(), banks, c, now)
    {
      var s := banks[c.rank][c.bank];
      if s.state != RowActive { return false; }
      var q := queues[c.rank][if p.perBank then c.bank else 0];
      var i := FindForRow(q, c.bank, s.row);
      return (i == |q| || counters[c.rank][c.bank] == p.rowAccesses) && now >= s.nextPrecharge;
    }

    /** The first packet that goes to a row, or the queue's length. */
    static method FindForRow(q: Queue, bank: nat, row: nat) returns (i: nat)
      ensures i == FirstForRow(q, bank, row, 0)
    {
      i := 0;
      while i < |q| && !(q[i].at.bank == bank && q[i].at.row == row)
        invariant i <= |q| && FirstForRow(q, bank, row, 0) == FirstForRow(q, bank, row, i)
      {
        i := i + 1;
      }
    }

    /** With a refresh waiting: serve the open rows, close them, or send the refresh. */
    method ServeRefresh(banks: Banks, now: int) returns (pick: Pick)
      requires Fits(banks) && refresh.Some?
      ensures pick == RefreshPick(p, State(), banks, now) && (pick.Take? ==> !pick.absorb)
    {
      var rank := refresh.value;
      var b := 0;
      while b < p.banks
        invariant b <= p.banks && FirstBusy(p, banks, rank, now, 0) == FirstBusy(p, banks, rank, now, b)
      {
        var s := banks[rank][b];
        if s.state == RowActive {
          pick := ServeRow(banks, rank, b, now);
          return;
        } else if s.nextActivate > now {
          return Nothing;
        }
        b := b + 1;
      }
      return RefreshNow;
    }

    method ServeRow(banks: Banks, rank: nat, bank: nat, now: int) returns (pick: Pick)
      requires Fits(banks) && InRange(p, rank, bank) && refresh == Some(rank) && banks[rank][bank].state == RowActive
      requires bank == FirstBusy(p, banks, rank, now, 0)
      ensures pick == RefreshPick(p, State(), banks, now) && (pick.Take? ==> !pick.absorb)
    {
      var s := banks[rank][bank];
      var q := queues[rank][if p.perBank then bank else 0];
      assert q == QueueAt(p, State(), rank, bank) && QueueInRange(p, q);
      var i := FindForRow(q, bank, s.row);
      if i < |q| && q[i].kind != Activate {
        var ready := IsIssuable(banks, q[i], now);
        if ready { return Take(rank, bank, i, false); }
      } else if p.openPage && now >= s.nextPrecharge {
        return Close(rank, bank);
      }
      return Nothing;
    }

    /** What is taken out, counted and flagged for a pick. */
    method Carry(pick: Pick) returns (packet: Option<Packet>)
      requires Shaped(p, State()) && Valid(p, State(), pick) && pick != Nothing
      requires pick.Take? ==> QueueInRange(p, QueueAt(p, State(), pick.rank, pick.bank))
      modifies `queues, `counters, `faw, `refresh
      ensures State() == Picked(p, old(State()), pick) && packet == Command(p, old(State()), pick)
    {
      match pick
      case Take(rank, bank, i, absorb) =>
        var k := if p.perBank then bank else 0;
        var q := queues[rank][k];
        var c := q[i];
        packet := Some(c);
        if absorb {
          var row: seq<nat> := counters[c.at.rank][c.at.bank := counters[c.at.rank][c.at.bank] + 1];
          counters := counters[c.at.rank := row];
        }
        queues := queues[rank := queues[rank][k := Removed(q, i, absorb)]];
        if c.kind == Activate { faw := faw[c.at.rank := faw[c.at.rank] + [p.tFAW]]; }
      case Close(rank, bank) =>
        var row: seq<nat> := counters[rank][bank := 0];
        counters := counters[rank := row];
        packet := Some(Packet(Precharge, 0, Place(rank, bank, 0), 0));
      case RefreshNow =>
        packet := Some(Packet(Refresh, 0, Place(refresh.value, 0, 0), 0));
        refresh := None;
    }

    /** One call per cycle: an allowed pick, and nothing only if there is nothing to do. */
    method Pop(banks: Banks, now: int) returns (c: Option<Packet>, ghost pick: Pick)
      requires Fits(banks)
      modifies this
      ensures var st := Prepared(old(State()), None);
              && Wellformed(p, st, banks) && Allowed(p, st, banks, pick, now) && Valid(p, st, pick)
              && c == Command(p, st, pick) && State() == Picked(p, st, pick)
      ensures Inside(p, next) && Inside(p, nextPre)
      ensures var st := Prepared(old(State()), None);
              ScanPick(p, st, banks, pick, old(next), now) && ClosePick(p, st, banks, pick, old(nextPre), now)
      ensures var at := if Scanned(p, Prepared(old(State()), None), banks, now) && pick.Take?
                        then Cursor(pick.rank, pick.bank) else old(next);
              && next == (if pick == Nothing || (p.AL > 0 && old(sendAct)) then at else NextCursor(p, at))
              && sendAct == (if pick == Nothing then old(sendAct) else !(p.AL > 0 && old(sendAct)))
      ensures nextPre == if Scanned(p, Prepared(old(State()), None), banks, now) && pick.Close?
                         then Cursor(pick.rank, pick.bank) else old(nextPre)
    {
      hide Scanned, ScanPick, ClosePick, Eligible, Prior;
      TickFaw();
      TickedFits(p, old(State()), banks);
      assert State() == Prepared(old(State()), None);
      var choice := Choose(banks, now);
      pick, c := choice, None;
      if choice != Nothing {
        c := Carry(choice);
        IndexNext(p, next);
        if p.AL > 0 && sendAct {
          sendAct := false;
        } else {
          sendAct := true;
          next := NextCursor(p, next);
        }
      }
    }

    method Choose(banks: Banks, now: int) returns (pick: Pick)
      requires Fits(banks)
      modifies `next, `nextPre
      ensures Allowed(p, State(), banks, pick, now) && Valid(p, State(), pick) && Fits(banks)
      ensures pick.Take? ==> QueueInRange(p, QueueAt(p, State(), pick.rank, pick.bank))
      ensures ScanPick(p, State(), banks, pick, old(next), now) && ClosePick(p, State(), banks, pick, old(nextPre), now)
      ensures next == if Scanned(p, State(), banks, now) && pick.Take? then Cursor(pick.rank, pick.bank) else old(next)
      ensures nextPre == if Scanned(p, State(), banks, now) && pick.Close? then Cursor(pick.rank, pick.bank)
                         else old(nextPre)
    {
      hide Candidate, Issuable, FirstForRow, NoCandidate, RowsKept, AllReadyForRefresh, RefreshPick, Turn, Unwanted;
      pick := Nothing;
      if refresh.Some? {
        pick := ServeRefresh(banks, now);
        RefreshEligible(p, State(), banks, now);
      }
      if pick == Nothing {
        var found, i := FindPacket(banks, now);
        if found {
          var q := queues[next.rank][if p.perBank then next.bank else 0];
          CandidateInQueue(p, State(), banks, next, i, now);
          pick := Take(next.rank, next.bank, i, p.openPage && i > 0 && q[i - 1].kind == Activate);
        } else {
          NoneFound(p, State(), banks, now);
          if p.openPage { found := FindClosable(banks, now); }
          if found {
            pick := Close(nextPre.rank, nextPre.bank);
          } else {
            NothingLeft(p, State(), banks, now);
          }
        }
      } else {
        AllowedValid(p, State(), banks, pick, now);
      }
    }
  }

  lemma TickedFits(p: Params, st: Sched, banks: Banks)
    requires Wellformed(p, st, banks)
    ensures Wellformed(p, Prepared(st, None), banks)
  {
    forall r, b | InRange(p, r, b) ensures QueueInRange(p, QueueAt(p, Prepared(st, None), r, b)) {
      assert QueueInRange(p, QueueAt(p, st, r, b));
    }
  }

  lemma CandidateInQueue(p: Params, st: Sched, banks: Banks, c: Cursor, i: nat, now: int)
    requires Wellformed(p, st, banks) && Inside(p, c) && Candidate(p, st, banks, c.rank, c.bank, i, now)
    ensures i < |QueueAt(p, st, c.rank, c.bank)| && QueueInRange(p, QueueAt(p, st, c.rank, c.bank))
  {
  }

  lemma NoneFound(p: Params, st: Sched, banks: Banks, now: int)
    requires Wellformed(p, st, banks) && (forall c: Cursor :: Inside(p, c) ==> NoCandidate(p, st, banks, c, now))
    ensures NoneReady(p, st, banks, now)
  {
    hide Candidate;
    forall r: nat, b: nat, i: nat | InRange(p, r, b) && st.refresh != Some(r)
      ensures !Candidate(p, st, banks, r, b, i, now)
    {
      assert NoCandidate(p, st, banks, Cursor(r, b), now);
    }
  }

  lemma NothingLeft(p: Params, st: Sched, banks: Banks, now: int)
    requires Wellformed(p, st, banks) && (forall c: Cursor :: Inside(p, c) ==> NoCandidate(p, st, banks, c, now))
    requires p.openPage ==> forall c: Cursor :: Inside(p, c) ==> RowsKept(p, st, banks, c, now)
    ensures NothingToDo(p, st, banks, now)
  {
    hide Candidate, FirstForRow;
    forall r: nat, b: nat | InRange(p, r, b)
      ensures st.refresh != Some(r) ==> forall i: nat :: !Candidate(p, st, banks, r, b, i, now)
      ensures p.openPage && banks[r][b].state == RowActive && now >= banks[r][b].nextPrecharge ==>
                var q := QueueAt(p, st, r, b);
                    FirstForRow(q, b, banks[r][b].row, 0) < |q| && st.counters[r][b] != p.rowAccesses
    {
      assert NoCandidate(p, st, banks, Cursor(r, b), now);
      if p.openPage { assert RowsKept(p, st, banks, Cursor(r, b), now); }
    }
  }

  lemma AllowedValid(p: Params, st: Sched, banks: Banks, pick: Pick, now: int)
    requires Wellformed(p, st, banks) && Eligible(p, st, banks, pick, now) && (pick.Take? ==> !pick.absorb)
    ensures Valid(p, st, pick)
    ensures pick.Take? ==> QueueInRange(p, QueueAt(p, st, pick.rank, pick.bank))
  {
  }
}
