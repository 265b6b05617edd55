/**
 * Rust's `i64` as used by the interpreter: the range, checked arithmetic that
 * panics on overflow (debug-build semantics), division truncating toward zero,
 * and the decimal text the lexer reads and `Display` writes.
 */
module I64 {
  import opened Wrappers

  const MIN: int := -0x8000_0000_0000_0000
  const MAX: int := 0x7fff_ffff_ffff_ffff

  newtype int64 = x: int | -0x8000_0000_0000_0000 <= x <= 0x7fff_ffff_ffff_ffff

  /** `x` as an `i64`, or the overflow panic. */
  function Checked(x: int): (r: Outcome<int64>)
    ensures r.Done? <==> MIN <= x <= MAX
    ensures r.Done? ==> r.value as int == x
    ensures r.Panic? ==> r.reason == IntOverflow
  {
    if MIN <= x <= MAX then Done(x as int64) else Panic(IntOverflow)
  }

  function Add(a: int64, b: int64): Outcome<int64> { Checked(a as int + b as int) }
  function Sub(a: int64, b: int64): Outcome<int64> { Checked(a as int - b as int) }
  function Mul(a: int64, b: int64): Outcome<int64> { Checked(a as int * b as int) }
  function Neg(a: int64): Outcome<int64> { Checked(- (a as int)) }

  function Abs(x: int): nat { if x < 0 then -x else x }

  /** Integer division rounding toward zero, as Rust's `/` does (Dafny's `/` is Euclidean). */
  function TruncDiv(a: int, b: int): (q: int)
    requires b != 0
  {
    var q := Abs(a) / Abs(b);
    if (a < 0) == (b < 0) then q else -q
  }

  /** The remainder that goes with `TruncDiv`: it has the sign of the dividend. */
  function TruncRem(a: int, b: int): (r: int)
    requires b != 0
  {
    var r := Abs(a) % Abs(b);
    if a < 0 then -r else r
  }

  /**
   * Quotient and remainder recompose the dividend; the remainder is smaller
   * than the divisor and has the sign of the dividend; the quotient rounds toward zero.
   */
  lemma {:induction false} TruncDivRem(a: int, b: int)
    requires b != 0
    ensures TruncDiv(a, b) * b + TruncRem(a, b) == a
    ensures Abs(TruncRem(a, b)) < Abs(b)
    ensures TruncRem(a, b) != 0 ==> (TruncRem(a, b) < 0 <==> a < 0)
    ensures Abs(TruncDiv(a, b)) == Abs(a) / Abs(b)
  {
    var m: int, n: int := Abs(a), Abs(b);
    var q: int, r: int := m / n, m % n;
    EuclidNat(m, n);
    var d: int := if (a < 0) == (b < 0) then q else -q;
    assert TruncDiv(a, b) == d && Abs(d) == q;
    assert TruncRem(a, b) == if a < 0 then -r else r;
    Recompose(a, b, q, r);
  }

  /** The sign cases of the recomposition, from `|a| == q * |b| + r`. */
  lemma Recompose(a: int, b: int, q: int, r: int)
    requires b != 0 && q == Abs(a) / Abs(b) && r == Abs(a) % Abs(b)
    ensures TruncDiv(a, b) * b + TruncRem(a, b) == a
  {
    var m: int, n: int := Abs(a), Abs(b);
    assert m == q * n + r;
    NegMul(q, n);
    if a >= 0 && b > 0 {
      assert TruncDiv(a, b) * b == q * n;
    } else if a >= 0 {
      assert TruncDiv(a, b) * b == (-q) * (-n);
    } else if b > 0 {
      assert TruncDiv(a, b) * b == (-q) * n;
    } else {
      assert TruncDiv(a, b) * b == q * (-n);
    }
  }

  lemma EuclidNat(m: int, n: int)
    requires 0 <= m && 0 < n
    ensures 0 <= m / n && 0 <= m % n < n && m == m / n * n + m % n
  {
  }

  lemma NegMul(x: int, y: int)
    ensures (-x) * y == -(x * y) && x * (-y) == -(x * y) && (-x) * (-y) == x * y
  {
  }

  /** Rust's `a / b` on `i64`: panics on a zero divisor and on `MIN / -1`. */
  function Div(a: int64, b: int64): (r: Outcome<int64>)
    ensures b == 0 ==> r == Panic(DivisionByZero)
    ensures b != 0 ==> r == Checked(TruncDiv(a as int, b as int))
  {
    if b == 0 then Panic(DivisionByZero) else Checked(TruncDiv(a as int, b as int))
  }

  lemma DivBound(m: nat, n: nat)
    requires n >= 2
    ensures m / n <= m / 2
  {
    var q := m / n;
    assert q * n <= m;
    assert q * 2 <= q * n;
  }

  lemma QuotientInRange(a: int64, b: int64)
    requires b != 0 && b != -1
    ensures MIN <= TruncDiv(a as int, b as int) <= MAX
  {
    var m, n := Abs(a as int), Abs(b as int);
    TruncDivRem(a as int, b as int);
    if n == 1 {
      assert b == 1;
      assert m / n == m;
    } else {
      DivBound(m, n);
    }
  }

  /** The only overflowing division is `MIN / -1`. */
  lemma {:induction false} DivOverflowOnlyAtMin(a: int64, b: int64)
    requires b != 0
    ensures Div(a, b).Panic? <==> (a as int == MIN && b == -1)
  {
    if b == -1 {
      assert Abs(a as int) / 1 == Abs(a as int);
      assert TruncDiv(a as int, b as int) == -(a as int);
    } else {
      QuotientInRange(a, b);
    }
  }

  function DigitChar(d: nat): (c: char)
    requires d < 10
    ensures '0' <= c <= '9'
  {
    ['0', '1', '2', '3', '4', '5', '6', '7', '8', '9'][d]
  }

  function CharDigit(c: char): (d: nat)
    requires '0' <= c <= '9'
    ensures d < 10 && DigitChar(d) == c
  {
    (c as int - '0' as int)
  }

  predicate IsDigits(s: string) { forall i :: 0 <= i < |s| ==> '0' <= s[i] <= '9' }

  /** The decimal digits of `n`, most significant first, without leading zeros. */
  function NatToDecimal(n: nat): (s: string)
    ensures |s| >= 1 && IsDigits(s)
  {
    if n < 10 then [DigitChar(n)] else NatToDecimal(n / 10) + [DigitChar(n % 10)]
  }

  /** Rust's `Display` for an integer: an optional `-` and the decimal digits. */
  function Decimal(x: int): string
  {
    if x < 0 then "-" + NatToDecimal(-x) else NatToDecimal(x)
  }

  /** The value of a run of decimal digits, as `str::parse` reads it. */
  function DecimalValue(s: string): nat
    requires IsDigits(s)
  {
    if s == [] then 0 else DecimalValue(s[..|s| - 1]) * 10 + CharDigit(s[|s| - 1])
  }

  /** Reading back the rendered digits of `n` gives `n`. */
  lemma {:induction false} DecimalRoundTrip(n: nat)
    ensures DecimalValue(NatToDecimal(n)) == n
  {
    if n >= 10 {
      var s := NatToDecimal(n);
      assert s[..|s| - 1] == NatToDecimal(n / 10);
      DecimalRoundTrip(n / 10);
    }
  }

  lemma DecimalHead(x: int)
    ensures |Decimal(x)| >= 1
    ensures x < 0 ==> Decimal(x)[0] == '-' && Decimal(x)[1..] == NatToDecimal(-x)
    ensures x >= 0 ==> '0' <= Decimal(x)[0] <= '9' && Decimal(x) == NatToDecimal(x)
  {
    if x < 0 {
      assert Decimal(x) == "-" + NatToDecimal(-x);
    }
  }

  lemma NatDecimalInjective(m: nat, n: nat)
    requires NatToDecimal(m) == NatToDecimal(n)
    ensures m == n
  {
    DecimalRoundTrip(m);
    DecimalRoundTrip(n);
  }

  /** Distinct integers render as distinct text. */
  lemma DecimalInjective(x: int, y: int)
    requires Decimal(x) == Decimal(y)
    ensures x == y
  {
    DecimalSign(x, y);
    DecimalHead(x);
    DecimalHead(y);
    if x < 0 {
      NatDecimalInjective(-x, -y);
    } else {
      NatDecimalInjective(x, y);
    }
  }

  /** Equal renderings agree on the leading minus sign. */
  lemma DecimalSign(x: int, y: int)
    requires Decimal(x) == Decimal(y)
    ensures x < 0 <==> y < 0
  {
    DecimalHead(x);
    DecimalHead(y);
  }
}
