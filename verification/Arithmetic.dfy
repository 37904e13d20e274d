/** Facts about multiplication, division and remainder. */
module Arithmetic {

  /** Multiplication as a function, so that a proof can treat products as atoms. */
  function Times(a: nat, b: nat): nat { a * b }

  function Quotient(x: nat, d: nat): nat requires d > 0 { x / d }
  function Remainder(x: nat, d: nat): nat requires d > 0 { x % d }

  lemma TimesNext(a: nat, b: nat)
    ensures Times(a + 1, b) == Times(a, b) + b
  {
  }

  ghost predicate MultipleOf(a: nat, n: nat) { n > 0 ==> a % n == 0 }

  lemma NextMultiple(a: nat, n: nat)
    requires MultipleOf(a, n)
    ensures MultipleOf(a + n, n)
  {
    if n > 0 {
      assert a + n == (a / n + 1) * n;
      MultipleMod(a / n + 1, n);
    }
  }

  lemma MulAtLeast(d: int, n: int)
    requires n > 0
    ensures d >= 1 ==> d * n >= n
    ensures d <= -1 ==> d * n <= -n
  {
    if d >= 1 { assert (d - 1) * n >= 0; }
    if d <= -1 { assert (-1 - d) * n >= 0; }
  }

  /** Row a of b rows of n ends where the next begins. */
  lemma RowBelow(a: nat, b: nat, n: nat)
    requires a < b
    ensures a * n + n <= b * n
  {
    assert b * n == a * n + n + (b - a - 1) * n;
    assert (b - a - 1) * n >= 0;
  }

  lemma WholeRows(x: nat, n: nat)
    requires n > 0
    ensures n * (x / n) <= x
  {
  }

  /** Division with remainder is unique. */
  lemma DivModUnique(x: int, n: int, q: int, r: int)
    requires n > 0 && x == q * n + r && 0 <= r < n
    ensures x / n == q && x % n == r
  {
    var q', r' := x / n, x % n;
    var d := q - q';
    assert d * n == q * n - q' * n;
    assert d * n == r' - r;
    MulAtLeast(d, n);
  }

  lemma ModOfMultiple(x: nat, b: nat, m: nat)
    requires b > 0 && m > 0 && x % b == 0 && m % b == 0
    ensures (x % m) % b == 0
  {
    var p, q := x / b, m / b;
    assert x == p * b && m == q * b;
    var k := x / m;
    assert x % m == x - k * m;
    assert x - k * m == (p - k * q) * b by { assert k * m == k * q * b; }
    MultipleMod(p - k * q, b);
  }

  lemma MultipleMod(a: int, b: int)
    requires b > 0
    ensures (a * b) % b == 0 && (a * b) / b == a
  {
    DivModUnique(a * b, b, a, 0);
  }

  lemma MulMultiple(a: nat, x: nat, b: nat)
    requires b > 0 && x % b == 0
    ensures (a * x) % b == 0
  {
    assert x == (x / b) * b;
    assert a * x == (a * (x / b)) * b;
    MultipleMod(a * (x / b), b);
  }

  lemma QuotientBound(x: nat, n: nat, k: nat)
    requires n > 0 && x < k * n
    ensures x / n < k
  {
    MulAtLeast(k - x / n - 1, n);
    assert (x / n) * n <= x < k * n;
    assert (k - x / n) * n > 0;
    MulAtLeast(k - x / n, n);
  }

  lemma OffsetBound(i: nat, b: nat, n: nat)
    requires b > 0 && n % b == 0
    ensures i * b < n <==> i < n / b
  {
    assert n == (n / b) * b;
    if i < n / b { assert i * b < (n / b) * b; }
    if i >= n / b { assert i * b >= (n / b) * b; }
  }
}
