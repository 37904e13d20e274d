/** The seven address mapping schemes of DRAMSim2, and the logarithm they take their widths from. */
module AddressMapping {
  import opened Arithmetic

  // Words and bits.

  function Pow2(n: nat): (r: nat)
    ensures r >= 1
  {
    if n == 0 then 1 else 2 * Pow2(n - 1)
  }

  /** x >> n, and the n low bits of x. */
  function High(x: nat, n: nat): nat { Quotient(x, Pow2(n)) }
  function Low(x: nat, n: nat): nat { Remainder(x, Pow2(n)) }

  /** A shift to the left in a 64-bit word. */
  function ShiftLeft(x: nat, n: nat): nat { Times(x, Pow2(n)) % 0x1_0000_0000_0000_0000 }

  function Xor(x: nat, y: nat): nat
    decreases x + y
  {
    if x == 0 && y == 0 then 0 else (x % 2 + y % 2) % 2 + 2 * Xor(x / 2, y / 2)
  }

  lemma HighLow(x: nat, n: nat)
    ensures x == Times(High(x, n), Pow2(n)) + Low(x, n) && Low(x, n) < Pow2(n)
  {
  }

  lemma HighLowUnique(q: nat, r: nat, n: nat)
    requires r < Pow2(n)
    ensures High(Times(q, Pow2(n)) + r, n) == q && Low(Times(q, Pow2(n)) + r, n) == r
  {
    DivModUnique(q * Pow2(n) + r, Pow2(n), q, r);
  }

  lemma HighBelow(x: nat, n: nat, k: nat)
    requires x < Times(k, Pow2(n))
    ensures High(x, n) < k
  {
    QuotientBound(x, Pow2(n), k);
  }

  lemma {:induction false} XorSelf(x: nat)
    ensures Xor(x, x) == 0
  {
    if x > 0 { XorSelf(x / 2); }
  }

  lemma TwiceTimes(q: nat, m: nat)
    ensures Times(q, 2 * m) == 2 * Times(q, m)
  {
  }

  lemma HalfHigh(x: nat, n: nat)
    requires n > 0
    ensures Low(x, n) == x % 2 + 2 * Low(x / 2, n - 1) && High(x, n) == High(x / 2, n - 1)
  {
    hide High, Low, Times;
    var q, r := High(x / 2, n - 1), Low(x / 2, n - 1);
    HighLow(x / 2, n - 1);
    TwiceTimes(q, Pow2(n - 1));
    assert x == Times(q, Pow2(n)) + (x % 2 + 2 * r);
    HighLowUnique(q, x % 2 + 2 * r, n);
  }

  lemma EvenXor(x: nat, y: nat)
    ensures Xor(x, 2 * y) == x % 2 + 2 * Xor(x / 2, y)
  {
    assert (2 * y) % 2 == 0 && (2 * y) / 2 == y;
  }

  /** Taking the low bits by exclusive or is taking the remainder. */
  lemma {:induction false} XorLow(x: nat, n: nat)
    ensures Xor(x, Times(High(x, n), Pow2(n))) == Low(x, n)
  {
    hide High, Low, Times, Xor;
    if n == 0 {
      HighLow(x, 0);
      TimesOne(High(x, 0));
      XorSelf(x);
    } else {
      HalfHigh(x, n);
      XorLow(x / 2, n - 1);
      TwiceTimes(High(x, n), Pow2(n - 1));
      EvenXor(x, Times(High(x, n), Pow2(n - 1)));
    }
  }

  lemma TimesOne(x: nat)
    ensures Times(x, 1) == x
  {
  }

  /** One step of every scheme: the field is cut off by shifting down, up again and comparing. */
  lemma SliceIsLow(x: nat, n: nat)
    requires x < 0x1_0000_0000_0000_0000
    ensures Xor(x, ShiftLeft(High(x, n), n)) == Low(x, n)
  {
    hide High, Low, Times, Xor, Pow2;
    XorLow(x, n);
    HighLow(x, n);
    SmallMod(Times(High(x, n), Pow2(n)));
  }

  lemma SmallMod(x: nat)
    requires x < 0x1_0000_0000_0000_0000
    ensures x % 0x1_0000_0000_0000_0000 == x
  {
  }

  // The schemes.

  datatype Field = Channel | Rank | Bank | Row | Column

  datatype Scheme = Scheme1 | Scheme2 | Scheme3 | Scheme4 | Scheme5 | Scheme6 | Scheme7

  datatype Widths = Widths(channel: nat, rank: nat, bank: nat, row: nat, column: nat)

  datatype Location = Location(channel: nat, rank: nat, bank: nat, row: nat, column: nat)

  /** The fields from the low end of the address to the high end. */
  function Order(s: Scheme): seq<Field> {
    match s
    case Scheme1 => [Bank, Column, Row, Rank, Channel]
    case Scheme2 => [Rank, Bank, Column, Row, Channel]
    case Scheme3 => [Row, Column, Bank, Rank, Channel]
    case Scheme4 => [Column, Row, Bank, Rank, Channel]
    case Scheme5 => [Bank, Rank, Column, Row, Channel]
    case Scheme6 => [Column, Rank, Bank, Row, Channel]
    case Scheme7 => [Channel, Bank, Rank, Column, Row]
  }

  function WidthOf(w: Widths, f: Field): nat {
    match f
    case Channel => w.channel
    case Rank => w.rank
    case Bank => w.bank
    case Row => w.row
    case Column => w.column
  }

  function Get(l: Location, f: Field): nat {
    match f
    case Channel => l.channel
    case Rank => l.rank
    case Bank => l.bank
    case Row => l.row
    case Column => l.column
  }

  function Set(l: Location, f: Field, v: nat): Location {
    match f
    case Channel => l.(channel := v)
    case Rank => l.(rank := v)
    case Bank => l.(bank := v)
    case Row => l.(row := v)
    case Column => l.(column := v)
  }

  /** The mapping as division with remainder, field by field. */
  function Split(w: Widths, order: seq<Field>, x: nat, l: Location): Location {
    if order == [] then l
    else
      var n := WidthOf(w, order[0]);
      Split(w, order[1..], High(x, n), Set(l, order[0], Low(x, n)))
  }

  /** The explicit inverse. */
  function Join(w: Widths, order: seq<Field>, l: Location): nat {
    if order == [] then 0 else Get(l, order[0]) + Times(Join(w, order[1..], l), Pow2(WidthOf(w, order[0])))
  }

  function Capacity(w: Widths, order: seq<Field>): nat {
    if order == [] then 1 else Times(Capacity(w, order[1..]), Pow2(WidthOf(w, order[0])))
  }

  const NOWHERE := Location(0, 0, 0, 0, 0)

  function Map(w: Widths, s: Scheme, x: nat): Location { Split(w, Order(s), x, NOWHERE) }

  function Unmap(w: Widths, s: Scheme, l: Location): nat { Join(w, Order(s), l) }

  predicate InRange(w: Widths, l: Location) {
    && l.channel < Pow2(w.channel) && l.rank < Pow2(w.rank) && l.bank < Pow2(w.bank) && l.row < Pow2(w.row)
       && l.column < Pow2(w.column)
  }

  predicate Distinct(order: seq<Field>) { forall i, j :: 0 <= i < j < |order| ==> order[i] != order[j] }

  lemma {:induction false} SplitOthers(w: Widths, order: seq<Field>, x: nat, l: Location, f: Field)
    requires f !in order
    ensures Get(Split(w, order, x, l), f) == Get(l, f)
  {
    hide High, Low, Pow2;
    if order != [] {
      var n := WidthOf(w, order[0]);
      SplitOthers(w, order[1..], High(x, n), Set(l, order[0], Low(x, n)), f);
    }
  }

  lemma {:induction false} SplitRange(w: Widths, order: seq<Field>, x: nat, l: Location, f: Field)
    requires f in order && Distinct(order)
    ensures Get(Split(w, order, x, l), f) < Pow2(WidthOf(w, f))
  {
    hide High, Low, Pow2;
    var n := WidthOf(w, order[0]);
    var l1 := Set(l, order[0], Low(x, n));
    HighLow(x, n);
    if f == order[0] {
      SplitOthers(w, order[1..], High(x, n), l1, f);
    } else {
      SplitRange(w, order[1..], High(x, n), l1, f);
    }
  }

  lemma {:induction false} JoinSplit(w: Widths, order: seq<Field>, x: nat, l: Location)
    requires Distinct(order) && x < Capacity(w, order)
    ensures Join(w, order, Split(w, order, x, l)) == x
  {
    hide High, Low, Pow2, Times;
    if order != [] {
      var n := WidthOf(w, order[0]);
      var l1 := Set(l, order[0], Low(x, n));
      HighBelow(x, n, Capacity(w, order[1..]));
      HighLow(x, n);
      JoinSplit(w, order[1..], High(x, n), l1);
      SplitOthers(w, order[1..], High(x, n), l1, order[0]);
    }
  }

  lemma {:induction false} SplitJoin(w: Widths, order: seq<Field>, l: Location, l0: Location, f: Field)
    requires Distinct(order) && f in order && forall g :: g in order ==> Get(l, g) < Pow2(WidthOf(w, g))
    ensures Get(Split(w, order, Join(w, order, l), l0), f) == Get(l, f)
  {
    hide High, Low, Pow2, Times;
    var n := WidthOf(w, order[0]);
    var rest := Join(w, order[1..], l);
    HighLowUnique(rest, Get(l, order[0]), n);
    var l1 := Set(l0, order[0], Get(l, order[0]));
    if f == order[0] {
      SplitOthers(w, order[1..], rest, l1, f);
    } else {
      SplitJoin(w, order[1..], l, l1, f);
    }
  }

  lemma EveryField(s: Scheme)
    ensures Distinct(Order(s)) && forall f: Field :: f in Order(s)
  {
    var o := Order(s);
    assert |o| == 5;
    forall f: Field ensures f in o { assert o[0] == f || o[1] == f || o[2] == f || o[3] == f || o[4] == f; }
  }

  /** Every scheme maps the addresses below its capacity one to one onto the locations in range. */
  lemma MapIsBijective(w: Widths, s: Scheme, x: nat)
    requires x < Capacity(w, Order(s))
    ensures InRange(w, Map(w, s, x)) && Unmap(w, s, Map(w, s, x)) == x
  {
    hide Split, Join, Order, Pow2, Capacity;
    EveryField(s);
    forall f: Field ensures Get(Map(w, s, x), f) < Pow2(WidthOf(w, f)) { SplitRange(w, Order(s), x, NOWHERE, f); }
    AllFields(w, Map(w, s, x));
    JoinSplit(w, Order(s), x, NOWHERE);
  }

  lemma AllFields(w: Widths, l: Location)
    ensures InRange(w, l) <==> forall f: Field :: Get(l, f) < Pow2(WidthOf(w, f))
  {
    hide Pow2;
    if forall f: Field :: Get(l, f) < Pow2(WidthOf(w, f)) {
      assert Get(l, Channel) < Pow2(WidthOf(w, Channel)) && Get(l, Rank) < Pow2(WidthOf(w, Rank))
          && Get(l, Bank) < Pow2(WidthOf(w, Bank));
      assert Get(l, Row) < Pow2(WidthOf(w, Row)) && Get(l, Column) < Pow2(WidthOf(w, Column));
    }
  }

  lemma TimesBelow(a: nat, b: nat, m: nat)
    requires a < b && m > 0
    ensures Times(a, m) + m <= Times(b, m)
  {
    MulAtLeast(b - a, m);
    assert (b - a) * m == b * m - a * m;
  }

  lemma {:induction false} JoinBelow(w: Widths, order: seq<Field>, l: Location)
    requires forall g :: g in order ==> Get(l, g) < Pow2(WidthOf(w, g))
    ensures Join(w, order, l) < Capacity(w, order)
  {
    hide Pow2, Times;
    if order != [] {
      JoinBelow(w, order[1..], l);
      TimesBelow(Join(w, order[1..], l), Capacity(w, order[1..]), Pow2(WidthOf(w, order[0])));
    }
  }

  lemma UnmapIsBijective(w: Widths, s: Scheme, l: Location)
    requires InRange(w, l)
    ensures Unmap(w, s, l) < Capacity(w, Order(s)) && Map(w, s, Unmap(w, s, l)) == l
  {
    hide Split, Join, Order, Pow2, Capacity;
    EveryField(s);
    AllFields(w, l);
    JoinBelow(w, Order(s), l);
    var m := Map(w, s, Unmap(w, s, l));
    forall f: Field ensures Get(m, f) == Get(l, f) { SplitJoin(w, Order(s), l, NOWHERE, f); }
    assert Get(m, Channel) == Get(l, Channel) && Get(m, Rank) == Get(l, Rank) && Get(m, Bank) == Get(l, Bank);
    assert Get(m, Row) == Get(l, Row) && Get(m, Column) == Get(l, Column);
  }

  // Which bits a scheme gives to which field.

  /** The field of the given width that starts at bit `below`. */
  function FieldAt(x: nat, below: nat, width: nat): nat { (x / Pow2(below)) % Pow2(width) }

  lemma {:induction false} Pow2Add(a: nat, b: nat)
    ensures Pow2(a + b) == Times(Pow2(a), Pow2(b))
  {
    hide Times;
    if b == 0 {
      TimesOne(Pow2(a));
    } else {
      Pow2Add(a, b - 1);
      TimesTwice(Pow2(a), Pow2(b - 1));
    }
  }

  lemma TimesTwice(a: nat, b: nat)
    ensures Times(a, 2 * b) == 2 * Times(a, b)
  {
  }

  /** Cutting off a bits and then b bits cuts off a + b bits. */
  lemma HighAdd(x: nat, a: nat, b: nat)
    ensures High(High(x, a), b) == High(x, a + b)
  {
    hide High, Low, Pow2;
    var h := High(x, a);
    HighLow(x, a);
    HighLow(h, b);
    Pow2Add(a, b);
    var low := Times(Low(h, b), Pow2(a)) + Low(x, a);
    TimesBelow(Low(h, b), Pow2(b), Pow2(a));
    Regrouped(High(h, b), Low(h, b), Pow2(a), Pow2(b));
    HighLowUnique(High(h, b), low, a + b);
  }

  lemma Regrouped(q: nat, r: nat, m: nat, n: nat)
    ensures Times(Times(q, n) + r, m) == Times(q, Times(m, n)) + Times(r, m) && Times(m, n) == Times(n, m)
  {
    assert (q * n + r) * m == (q * n) * m + r * m;
    assert (q * n) * m == q * (m * n);
  }

  lemma HighIs(x: nat, n: nat)
    ensures High(x, n) == x / Pow2(n)
  {
  }

  lemma FieldIsLow(x: nat, below: nat, width: nat)
    ensures Low(High(x, below), width) == FieldAt(x, below, width) && Low(x, width) == FieldAt(x, 0, width)
  {
    assert x / Pow2(0) == x;
  }

  /** Five fields in a row, each at its place in the address. */
  lemma SplitPlaces(w: Widths, f: seq<Field>, x: nat)
    requires |f| == 5
    ensures var n1 := WidthOf(w, f[0]);
            var n2 := n1 + WidthOf(w, f[1]);
            var n3 := n2 + WidthOf(w, f[2]);
            var n4 := n3 + WidthOf(w, f[3]);
            Split(w, f, x, NOWHERE) ==
            Set(Set(Set(Set(Set(NOWHERE, f[0], FieldAt(x, 0, WidthOf(w, f[0]))), f[1],
                FieldAt(x, n1, WidthOf(w, f[1]))),
                            f[2], FieldAt(x, n2, WidthOf(w, f[2]))), f[3], FieldAt(x, n3, WidthOf(w, f[3]))),
                f[4], FieldAt(x, n4, WidthOf(w, f[4])))
  {
    hide High, Low, Pow2, Split, FieldAt, Set;
    SplitFive(w, f, x);
    var n1 := WidthOf(w, f[0]);
    var n2 := n1 + WidthOf(w, f[1]);
    var n3 := n2 + WidthOf(w, f[2]);
    HighAdd(x, n1, WidthOf(w, f[1]));
    HighAdd(x, n2, WidthOf(w, f[2]));
    HighAdd(x, n3, WidthOf(w, f[3]));
    FieldIsLow(x, n1, n1);
    FieldIsLow(x, n1, WidthOf(w, f[1]));
    FieldIsLow(x, n2, WidthOf(w, f[2]));
    FieldIsLow(x, n3, WidthOf(w, f[3]));
    FieldIsLow(x, n3 + WidthOf(w, f[3]), WidthOf(w, f[4]));
  }

  /** The seven schemes, bit by bit. */
  lemma MapFields(w: Widths, s: Scheme, x: nat)
    ensures var l := Map(w, s, x);
            var (ch, ra, ba, ro, co) := (w.channel, w.rank, w.bank, w.row, w.column);
            match s
            case Scheme1 =>
              && l.bank == FieldAt(x, 0, ba) && l.column == FieldAt(x, ba, co) && l.row == FieldAt(x, ba + co, ro)
              && l.rank == FieldAt(x, ba + co + ro, ra) && l.channel == FieldAt(x, ba + co + ro + ra, ch)
            case Scheme2 =>
              && l.rank == FieldAt(x, 0, ra) && l.bank == FieldAt(x, ra, ba) && l.column == FieldAt(x, ra + ba, co)
              && l.row == FieldAt(x, ra + ba + co, ro) && l.channel == FieldAt(x, ra + ba + co + ro, ch)
            case Scheme3 =>
              && l.row == FieldAt(x, 0, ro) && l.column == FieldAt(x, ro, co) && l.bank == FieldAt(x, ro + co, ba)
              && l.rank == FieldAt(x, ro + co + ba, ra) && l.channel == FieldAt(x, ro + co + ba + ra, ch)
            case Scheme4 =>
              && l.column == FieldAt(x, 0, co) && l.row == FieldAt(x, co, ro) && l.bank == FieldAt(x, co + ro, ba)
              && l.rank == FieldAt(x, co + ro + ba, ra) && l.channel == FieldAt(x, co + ro + ba + ra, ch)
            case Scheme5 =>
              && l.bank == FieldAt(x, 0, ba) && l.rank == FieldAt(x, ba, ra) && l.column == FieldAt(x, ba + ra, co)
              && l.row == FieldAt(x, ba + ra + co, ro) && l.channel == FieldAt(x, ba + ra + co + ro, ch)
            case Scheme6 =>
              && l.column == FieldAt(x, 0, co) && l.rank == FieldAt(x, co, ra) && l.bank == FieldAt(x, co + ra, ba)
              && l.row == FieldAt(x, co + ra + ba, ro) && l.channel == FieldAt(x, co + ra + ba + ro, ch)
            case Scheme7 =>
              && l.channel == FieldAt(x, 0, ch) && l.bank == FieldAt(x, ch, ba) && l.rank == FieldAt(x, ch + ba, ra)
              && l.column == FieldAt(x, ch + ba + ra, co) && l.row == FieldAt(x, ch + ba + ra + co, ro)
  {
    hide Pow2, Split, FieldAt;
    SplitPlaces(w, Order(s), x);
  }

  ghost predicate Positive(w: Widths) { forall f: Field :: WidthOf(w, f) > 0 }

  /** The bit at which the i-th field of an order starts. */
  function Offset(w: Widths, order: seq<Field>, i: nat): nat
    requires i <= |order|
  {
    if i == 0 then 0 else WidthOf(w, order[0]) + Offset(w, order[1..], i - 1)
  }

  lemma {:induction false} SplitZero(w: Widths, order: seq<Field>, l: Location, f: Field)
    requires f in order && Distinct(order)
    ensures Get(Split(w, order, 0, l), f) == 0
  {
    hide High, Low, Pow2;
    var n := WidthOf(w, order[0]);
    ZeroParts(n);
    if f == order[0] {
      SplitOthers(w, order[1..], 0, Set(l, f, 0), f);
    } else {
      SplitZero(w, order[1..], Set(l, order[0], 0), f);
    }
  }

  lemma ZeroParts(n: nat)
    ensures High(0, n) == 0 && Low(0, n) == 0
  {
    hide High, Low, Pow2;
    HighLowUnique(0, 0, n);
  }

  lemma OneParts(n: nat)
    requires n > 0
    ensures High(1, n) == 0 && Low(1, n) == 1
  {
    hide High, Low;
    assert Pow2(n) == 2 * Pow2(n - 1);
    HighLowUnique(0, 1, n);
  }

  lemma PowerParts(n: nat, k: nat)
    ensures High(Pow2(n + k), n) == Pow2(k) && Low(Pow2(n + k), n) == 0
  {
    hide High, Low, Pow2;
    Pow2Add(k, n);
    HighLowUnique(Pow2(k), 0, n);
  }

  /** The lowest bit of a field sets this field and no other. */
  lemma {:induction false} SplitBit(w: Widths, order: seq<Field>, i: nat, l: Location, f: Field)
    requires Positive(w) && Distinct(order) && i < |order| && f in order
    ensures Get(Split(w, order, Pow2(Offset(w, order, i)), l), f) == if f == order[i] then 1 else 0
  {
    hide High, Low, Pow2;
    var n := WidthOf(w, order[0]);
    if i == 0 {
      assert Pow2(0) == 1 by { PowZero(); }
      OneParts(n);
      if f == order[0] {
        SplitOthers(w, order[1..], 0, Set(l, f, 1), f);
      } else {
        SplitZero(w, order[1..], Set(l, order[0], 1), f);
      }
    } else {
      var k := Offset(w, order[1..], i - 1);
      PowerParts(n, k);
      if f == order[0] {
        SplitOthers(w, order[1..], Pow2(k), Set(l, f, 0), f);
      } else {
        SplitBit(w, order[1..], i - 1, Set(l, order[0], 0), f);
      }
    }
  }

  lemma PowZero()
    ensures Pow2(0) == 1
  {
  }

  lemma {:induction false} SameOffset(w: Widths, a: seq<Field>, b: seq<Field>, i: nat)
    requires i <= |a| && i <= |b| && a[..i] == b[..i]
    ensures Offset(w, a, i) == Offset(w, b, i)
  {
    if i > 0 {
      assert a[0] == a[..i][0] == b[..i][0] == b[0];
      assert a[1..][..i - 1] == a[..i][1..] == b[..i][1..] == b[1..][..i - 1];
      SameOffset(w, a[1..], b[1..], i - 1);
    }
  }

  lemma {:induction false} OffsetBelow(w: Widths, order: seq<Field>, i: nat)
    requires Positive(w) && i < |order|
    ensures Pow2(Offset(w, order, i)) < Capacity(w, order)
  {
    hide Pow2, Times;
    var n := WidthOf(w, order[0]);
    if i == 0 {
      PowZero();
      CapacityPositive(w, order[1..]);
      Pow2Monotone(0, n);
      assert Times(Capacity(w, order[1..]), Pow2(n)) >= Pow2(n) by { TimesSame(Capacity(w, order[1..]), Pow2(n)); }
    } else {
      var k := Offset(w, order[1..], i - 1);
      OffsetBelow(w, order[1..], i - 1);
      Pow2Add(k, n);
      TimesBelow(Pow2(k), Capacity(w, order[1..]), Pow2(n));
    }
  }

  lemma TimesSame(a: nat, b: nat)
    requires a >= 1
    ensures Times(a, b) >= b
  {
    assert a * b == b + (a - 1) * b;
  }

  lemma {:induction false} CapacityPositive(w: Widths, order: seq<Field>)
    ensures Capacity(w, order) >= 1
  {
    hide Times;
    if order != [] {
      CapacityPositive(w, order[1..]);
      TimesSame(Capacity(w, order[1..]), Pow2(WidthOf(w, order[0])));
    }
  }

  /** The first place at which two schemes differ. */
  function FirstDifference(s: Scheme, t: Scheme): (i: nat)
    requires s != t
    ensures i < 5 && Order(s)[..i] == Order(t)[..i] && Order(s)[i] != Order(t)[i]
  {
    var a, b := Order(s), Order(t);
    if a[0] != b[0] then 0 else if a[1] != b[1] then 1 else if a[2] != b[2] then 2 else 3
  }

  /** No two schemes are the same mapping. */
  lemma SchemesDiffer(w: Widths, s: Scheme, t: Scheme) returns (x: nat)
    requires Positive(w) && s != t
    ensures x < Capacity(w, Order(s)) && x < Capacity(w, Order(t)) && Map(w, s, x) != Map(w, t, x)
  {
    hide Order, Split, Pow2, Capacity, Positive, FirstDifference;
    var i := FirstDifference(s, t);
    FiveFields(s);
    FiveFields(t);
    var f := Order(s)[i];
    EveryField(s);
    EveryField(t);
    x := Pow2(Offset(w, Order(s), i));
    SameOffset(w, Order(s), Order(t), i);
    OffsetBelow(w, Order(s), i);
    OffsetBelow(w, Order(t), i);
    SplitBit(w, Order(s), i, NOWHERE, f);
    SplitBit(w, Order(t), i, NOWHERE, f);
  }

  lemma FiveFields(s: Scheme)
    ensures |Order(s)| == 5
  {
  }

  // The code.

  /** tempA, tempB and the shifted address. */
  method Slice(physicalAddress: nat, width: nat) returns (rest: nat, field: nat)
    requires physicalAddress < 0x1_0000_0000_0000_0000
    ensures rest == High(physicalAddress, width) && field == Low(physicalAddress, width)
            && rest < 0x1_0000_0000_0000_0000
  {
    hide High, Low, Pow2, Xor, ShiftLeft;
    var tempA := physicalAddress;
    rest := High(physicalAddress, width);
    var tempB := ShiftLeft(rest, width);
    field := Xor(tempA, tempB);
    SliceIsLow(physicalAddress, width);
    HighSmaller(physicalAddress, width);
  }

  lemma HighSmaller(x: nat, n: nat)
    ensures High(x, n) <= x
  {
    HighLow(x, n);
    hide High, Low, Pow2;
    assert Times(High(x, n), Pow2(n)) >= High(x, n) by { MulAtLeast(Pow2(n), 1); TimesAtLeast(High(x, n), Pow2(n)); }
  }

  lemma TimesAtLeast(a: nat, b: nat)
    requires b >= 1
    ensures Times(a, b) >= a
  {
    assert a * b == a + a * (b - 1);
  }

  /** Five fields in a row. */
  lemma SplitFive(w: Widths, f: seq<Field>, x: nat)
    requires |f| == 5
    ensures var x1 := High(x, WidthOf(w, f[0]));
            var x2 := High(x1, WidthOf(w, f[1]));
            var x3 := High(x2, WidthOf(w, f[2]));
            var x4 := High(x3, WidthOf(w, f[3]));
            Split(w, f, x, NOWHERE) ==
            Set(Set(Set(Set(Set(NOWHERE, f[0], Low(x, WidthOf(w, f[0]))), f[1], Low(x1, WidthOf(w, f[1]))),
                            f[2], Low(x2, WidthOf(w, f[2]))), f[3], Low(x3, WidthOf(w, f[3]))), f[4],
                                Low(x4, WidthOf(w, f[4])))
  {
    hide High, Low, Set, Pow2;
    var x1 := High(x, WidthOf(w, f[0]));
    var x2 := High(x1, WidthOf(w, f[1]));
    var x3 := High(x2, WidthOf(w, f[2]));
    var x4 := High(x3, WidthOf(w, f[3]));
    var l1 := Set(NOWHERE, f[0], Low(x, WidthOf(w, f[0])));
    var l2 := Set(l1, f[1], Low(x1, WidthOf(w, f[1])));
    var l3 := Set(l2, f[2], Low(x2, WidthOf(w, f[2])));
    var l4 := Set(l3, f[3], Low(x3, WidthOf(w, f[3])));
    SplitOne(w, f, x, NOWHERE);
    SplitOne(w, f[1..], x1, l1);
    SplitOne(w, f[1..][1..], x2, l2);
    SplitOne(w, f[1..][1..][1..], x3, l3);
    SplitOne(w, f[1..][1..][1..][1..], x4, l4);
    assert f[1..][1..][1..][1..][1..] == [];
  }

  lemma SplitOne(w: Widths, f: seq<Field>, x: nat, l: Location)
    requires f != []
    ensures var n := WidthOf(w, f[0]); Split(w, f, x, l) == Split(w, f[1..], High(x, n), Set(l, f[0], Low(x, n)))
    ensures Split(w, [], x, l) == l
  {
  }

  method MapAddress(w: Widths, s: Scheme, byteOffset: nat, columnLow: nat, physicalAddress: nat) returns (l: Location)
    requires physicalAddress < 0x1_0000_0000_0000_0000
    ensures l == Map(w, s, Quotient(physicalAddress, Pow2(byteOffset + columnLow)))
  {
    hide High, Low, Pow2, Split;
    HighAdd(physicalAddress, byteOffset, columnLow);
    assert High(physicalAddress, byteOffset + columnLow) == Quotient(physicalAddress, Pow2(byteOffset + columnLow)) by {
      HighIs(physicalAddress, byteOffset + columnLow);
    }
    hide Quotient;
    HighSmaller(physicalAddress, byteOffset);
    var x := High(physicalAddress, byteOffset);
    HighSmaller(x, columnLow);
    x := High(x, columnLow);
    SplitFive(w, Order(s), x);
    var channel, rank, bank, row, column;
    match s {
      case Scheme1 =>
        x, bank := Slice(x, w.bank);
        x, column := Slice(x, w.column);
        x, row := Slice(x, w.row);
        x, rank := Slice(x, w.rank);
        x, channel := Slice(x, w.channel);
      case Scheme2 =>
        x, rank := Slice(x, w.rank);
        x, bank := Slice(x, w.bank);
        x, column := Slice(x, w.column);
        x, row := Slice(x, w.row);
        x, channel := Slice(x, w.channel);
      case Scheme3 =>
        x, row := Slice(x, w.row);
        x, column := Slice(x, w.column);
        x, bank := Slice(x, w.bank);
        x, rank := Slice(x, w.rank);
        x, channel := Slice(x, w.channel);
      case Scheme4 =>
        x, column := Slice(x, w.column);
        x, row := Slice(x, w.row);
        x, bank := Slice(x, w.bank);
        x, rank := Slice(x, w.rank);
        x, channel := Slice(x, w.channel);
      case Scheme5 =>
        x, bank := Slice(x, w.bank);
        x, rank := Slice(x, w.rank);
        x, column := Slice(x, w.column);
        x, row := Slice(x, w.row);
        x, channel := Slice(x, w.channel);
      case Scheme6 =>
        x, column := Slice(x, w.column);
        x, rank := Slice(x, w.rank);
        x, bank := Slice(x, w.bank);
        x, row := Slice(x, w.row);
        x, channel := Slice(x, w.channel);
      case Scheme7 =>
        x, channel := Slice(x, w.channel);
        x, bank := Slice(x, w.bank);
        x, rank := Slice(x, w.rank);
        x, column := Slice(x, w.column);
        x, row := Slice(x, w.row);
    }
    l := Location(channel, rank, bank, row, column);
  }

  /** An aligned address is recovered from its location. */
  lemma AlignedRoundTrip(w: Widths, s: Scheme, byteOffset: nat, columnLow: nat, x: nat)
    requires x < Capacity(w, Order(s))
    ensures var addr := Times(Times(x, Pow2(columnLow)), Pow2(byteOffset));
            Unmap(w, s, Map(w, s, addr / Pow2(byteOffset + columnLow))) == x
  {
    hide High, Low, Pow2, Map, Unmap, Capacity, Order, Times;
    var addr := Times(Times(x, Pow2(columnLow)), Pow2(byteOffset));
    HighAdd(addr, byteOffset, columnLow);
    HighIs(addr, byteOffset + columnLow);
    HighLowUnique(Times(x, Pow2(columnLow)), 0, byteOffset);
    HighLowUnique(x, 0, columnLow);
    MapIsBijective(w, s, x);
  }

  // The logarithm.

  /** The least exponent whose power of two reaches the value. */
  ghost predicate CeilingLog(value: nat, r: nat) { value <= Pow2(r) && (r > 0 ==> Pow2(r - 1) < value) }

  lemma HighNext(x: nat, n: nat)
    ensures High(x, n) / 2 == High(x, n + 1)
  {
    hide High, Low, Times;
    HighLow(x, n);
    var h := High(x, n);
    TimesTwo(h, Pow2(n));
    HighLowUnique(h / 2, (h % 2) * Pow2(n) + Low(x, n), n + 1);
  }

  lemma TimesTwo(h: nat, m: nat)
    ensures Times(h, m) == Times(h / 2, 2 * m) + (h % 2) * m
  {
    assert h == 2 * (h / 2) + h % 2;
    assert h * m == (2 * (h / 2)) * m + (h % 2) * m;
  }

  method DramsimLog2(value: nat) returns (logbase2: nat)
    ensures CeilingLog(value, logbase2)
  {
    hide High, Low;
    var orig, v := value, value / 2;
    logbase2 := 0;
    FirstHigh(value);
    while v > 0
      invariant v == High(orig, logbase2 + 1) && (logbase2 > 0 ==> High(orig, logbase2) > 0)
      decreases v
    {
      HighNext(orig, logbase2 + 1);
      v := v / 2;
      logbase2 := logbase2 + 1;
    }
    HighZero(orig, logbase2 + 1);
    HighZero(orig, logbase2);
    if Pow2(logbase2) < orig { logbase2 := logbase2 + 1; }
  }

  lemma FirstHigh(x: nat)
    ensures High(x, 1) == x / 2
  {
    assert Pow2(1) == 2 * Pow2(0);
  }

  lemma HighZero(x: nat, n: nat)
    ensures High(x, n) == 0 <==> x < Pow2(n)
  {
    HighLow(x, n);
    hide High, Low;
    if High(x, n) > 0 { TimesAtLeast(Pow2(n), High(x, n)); }
    if High(x, n) == 0 { assert Times(0, Pow2(n)) == 0; }
  }

  lemma {:induction false} Pow2Monotone(a: nat, b: nat)
    requires a <= b
    ensures Pow2(a) <= Pow2(b) && (a < b ==> Pow2(a) < Pow2(b))
  {
    if a < b { Pow2Monotone(a, b - 1); }
  }

  /** The argument has 64 bits, but its logarithm is taken of the low 32: larger powers are not recognised. */
  method IsPowerOfTwo(x: nat) returns (r: bool)
    ensures r <==> exists k: nat :: k < 32 && x == Pow2(k)
  {
    hide Low, Pow2;
    var n := DramsimLog2(Low(x, 32));
    r := Pow2(n) == x;
    PowersBelow(x, n, 32);
  }

  lemma PowersBelow(x: nat, n: nat, width: nat)
    requires width > 0 && CeilingLog(Low(x, width), n)
    ensures x == Pow2(n) <==> exists k: nat :: k < width && x == Pow2(k)
  {
    hide High, Low, Pow2, Times;
    HighLow(x, width);
    if k: nat :| k < width && x == Pow2(k) {
      Pow2Monotone(k, width);
      NoHigh(x, width);
      if k < n { Pow2Monotone(k, n - 1); }
      if n < k { Pow2Monotone(n, k); }
    }
    if x == Pow2(n) { LogBelow(x, n, width); }
  }

  lemma NoHigh(x: nat, n: nat)
    requires x < Pow2(n)
    ensures Low(x, n) == x
  {
    hide High, Low, Pow2;
    HighLowUnique(0, x, n);
  }

  /** The power just above the low bits has none of them set. */
  lemma LogBelow(x: nat, n: nat, width: nat)
    requires width > 0 && CeilingLog(Low(x, width), n) && x == Pow2(n)
    ensures n < width
  {
    hide High, Low, Pow2;
    HighLow(x, width);
    if n > width { Pow2Monotone(width, n - 1); }
    if n == width { HighLowUnique(1, 0, width); }
  }

  /** A count of ranks, or of banks, bounds its field for every address exactly if it is a power of two. */
  lemma FieldInRangeIff(count: nat, width: nat)
    requires CeilingLog(count, width)
    ensures (forall x: nat :: Low(x, width) < count) <==> count == Pow2(width)
  {
    hide Low, High;
    if count < Pow2(width) {
      HighLowUnique(0, count, width);
      assert Times(0, Pow2(width)) == 0;
      assert !(Low(count, width) < count);
    } else {
      forall x: nat ensures Low(x, width) < count { HighLow(x, width); }
    }
  }
}
