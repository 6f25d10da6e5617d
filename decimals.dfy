/** Exact decimal money as `real`: quantization to cents with ROUND_HALF_UP
    (Python's `decimal`, where ties go away from zero), and the subset of
    `Decimal(str)` the rate updater relies on. */
module Decimals {
  import opened Wrappers

  /** `x` has at most two fractional digits: a multiple of 0.01. */
  predicate IsCents(x: real) {
    (x * 100.0).Floor as real == x * 100.0
  }

  /** The amount of `n` whole cents. */
  function CentsValue(n: int): real {
    n as real / 100.0
  }

  function Abs(x: real): real {
    if x < 0.0 then -x else x
  }

  /** Exact `Decimal` multiplication, kept behind a name so that the solver
      treats products as terms. */
  function Times(a: real, b: real): real {
    a * b
  }

  /** Whole hundredths of `x`, rounded to nearest with ties away from zero. */
  function RoundHalfUpCents(x: real): int {
    if x >= 0.0 then (x * 100.0 + 0.5).Floor else -((0.5 - x * 100.0).Floor)
  }

  /** `x` lies exactly half-way between two multiples of 0.01. */
  predicate IsTie(x: real) {
    x * 100.0 - (x * 100.0).Floor as real == 0.5
  }

  /** `_q`: `d.quantize(Decimal("0.01"), rounding=ROUND_HALF_UP)`. The result is
      the multiple of 0.01 nearest to `x`; of two equally near ones it is the one
      farther from zero. */
  function Quantize(x: real): (r: real)
    ensures IsCents(r)
    ensures -0.005 <= r - x <= 0.005
    ensures forall n: int :: Abs(x - r) <= Abs(x - CentsValue(n))
    ensures IsTie(x) ==> Abs(r) > Abs(x)
  {
    NearestAll(x);
    CentsValue(RoundHalfUpCents(x))
  }

  /** In hundredths, the rounded value is within one half of `x * 100`, and a
      tie is resolved away from zero. */
  lemma RoundHalfUpBounds(x: real)
    ensures var y, k := x * 100.0, RoundHalfUpCents(x) as real;
      && (x >= 0.0 ==> k - 0.5 <= y < k + 0.5)
      && (x < 0.0 ==> k - 0.5 < y <= k + 0.5)
      && (IsTie(x) ==> (if x >= 0.0 then k > y else k < y))
  {
  }

  lemma NearestCents(x: real, n: int)
    ensures Abs(x - CentsValue(RoundHalfUpCents(x))) <= Abs(x - CentsValue(n))
  {
    var y, k := x * 100.0, RoundHalfUpCents(x);
    RoundHalfUpBounds(x);
    assert x - CentsValue(k) == (y - k as real) / 100.0;
    assert x - CentsValue(n) == (y - n as real) / 100.0;
    if n > k {
      assert n as real >= k as real + 1.0;
    } else if n < k {
      assert n as real <= k as real - 1.0;
    }
  }

  lemma NearestAll(x: real)
    ensures forall n: int :: Abs(x - CentsValue(RoundHalfUpCents(x))) <= Abs(x - CentsValue(n))
    ensures -0.005 <= CentsValue(RoundHalfUpCents(x)) - x <= 0.005
    ensures IsTie(x) ==> Abs(CentsValue(RoundHalfUpCents(x))) > Abs(x)
  {
    forall n: int ensures Abs(x - CentsValue(RoundHalfUpCents(x))) <= Abs(x - CentsValue(n)) {
      NearestCents(x, n);
    }
    RoundHalfUpBounds(x);
  }

  /** Quantizing an amount that already has two decimals leaves it unchanged. */
  lemma QuantizeCents(x: real)
    requires IsCents(x)
    ensures Quantize(x) == x
  {
    var y := x * 100.0;
    assert y.Floor as real == y;
    if x >= 0.0 {
      assert (y + 0.5).Floor == y.Floor;
    } else {
      assert (0.5 - y).Floor == -(y.Floor);
    }
  }

  /** `_q` is idempotent. */
  lemma QuantizeIdempotent(x: real)
    ensures Quantize(Quantize(x)) == Quantize(x)
  {
    QuantizeCents(Quantize(x));
  }

  /** ROUND_HALF_UP is symmetric about zero. */
  lemma QuantizeNegate(x: real)
    ensures Quantize(-x) == -Quantize(x)
  {
    if x > 0.0 {
      assert RoundHalfUpCents(-x) == -RoundHalfUpCents(x);
    } else if x < 0.0 {
      assert RoundHalfUpCents(-x) == -RoundHalfUpCents(x);
    }
  }

  /** The two tie cases of the source's rounding mode. */
  lemma QuantizeTies()
    ensures Quantize(1.005) == 1.01
    ensures Quantize(-1.005) == -1.01
  {
    assert RoundHalfUpCents(1.005) == 101;
    assert RoundHalfUpCents(-1.005) == -101;
  }

  // ---- Decimal(str) ------------------------------------------------------

  predicate IsDigit(c: char) {
    '0' <= c <= '9'
  }

  predicate AllDigits(s: string) {
    forall i :: 0 <= i < |s| ==> IsDigit(s[i])
  }

  function DigitValue(c: char): nat
    requires IsDigit(c)
  {
    c as int - '0' as int
  }

  function DigitChar(d: nat): (c: char)
    requires d < 10
    ensures IsDigit(c) && DigitValue(c) == d
  {
    ('0' as int + d) as char
  }

  /** The number a string of decimal digits denotes, most significant first. */
  function DigitsValue(s: string): nat
    requires AllDigits(s)
  {
    if s == [] then 0 else 10 * DigitsValue(s[..|s| - 1]) + DigitValue(s[|s| - 1])
  }

  function Pow10(n: nat): (r: nat)
    ensures r >= 1
  {
    if n == 0 then 1 else 10 * Pow10(n - 1)
  }

  /** The first position of `c` in `s`. */
  function IndexOf(s: string, c: char): (r: Option<nat>)
    ensures r.Some? ==> r.value < |s| && s[r.value] == c && c !in s[..r.value]
    ensures r.None? ==> c !in s
  {
    if s == [] then None
    else if s[0] == c then Some(0)
    else
      match IndexOf(s[1..], c)
      case None => None
      case Some(i) =>
        assert s[..i + 1] == [s[0]] + s[1..][..i];
        Some(i + 1)
  }

  /** Digits with an optional decimal point; at least one digit. */
  function ParseUnsignedDecimal(s: string): (r: Option<real>)
    ensures r.Some? ==> s != [] && r.value >= 0.0
  {
    match IndexOf(s, '.')
    case None =>
      if |s| > 0 && AllDigits(s) then Some(DigitsValue(s) as real) else None
    case Some(i) =>
      var whole, frac := s[..i], s[i + 1..];
      if |whole| + |frac| > 0 && AllDigits(whole) && AllDigits(frac)
      then Some(DigitsValue(whole) as real + DigitsValue(frac) as real / Pow10(|frac|) as real)
      else None
  }

  /** `Decimal(s)` for a plain decimal numeral with an optional sign; `None`
      stands for the `InvalidOperation` the constructor raises. */
  function ParseDecimal(s: string): (r: Option<real>)
    ensures r.Some? ==> s != []
    ensures r.Some? && s[0] != '-' ==> r.value >= 0.0
    ensures r.Some? && s[0] == '-' ==> r.value <= 0.0
  {
    if |s| > 0 && s[0] == '-' then
      match ParseUnsignedDecimal(s[1..])
      case Some(v) => Some(-v)
      case None => None
    else if |s| > 0 && s[0] == '+' then ParseUnsignedDecimal(s[1..])
    else ParseUnsignedDecimal(s)
  }

  // ---- Formatting, the inverse used to state the parser's round trip -------

  /** Decimal digits of `n` without leading zeros. */
  function DigitsOf(n: nat): (s: string)
    ensures AllDigits(s) && |s| > 0
  {
    if n < 10 then [DigitChar(n)] else DigitsOf(n / 10) + [DigitChar(n % 10)]
  }

  lemma {:induction false} DigitsOfValue(n: nat)
    ensures DigitsValue(DigitsOf(n)) == n
  {
    if n >= 10 {
      var s := DigitsOf(n);
      assert s[..|s| - 1] == DigitsOf(n / 10);
      DigitsOfValue(n / 10);
    }
  }

  lemma AllDigitsAppend(a: string, b: string)
    requires AllDigits(a) && AllDigits(b)
    ensures AllDigits(a + b)
  {
    forall i | 0 <= i < |a + b| ensures IsDigit((a + b)[i]) {
      if i < |a| { assert (a + b)[i] == a[i]; } else { assert (a + b)[i] == b[i - |a|]; }
    }
  }

  /** Appending digits shifts the value left, as in positional notation. */
  lemma {:induction false} DigitsValueAppend(a: string, b: string)
    requires AllDigits(a) && AllDigits(b)
    ensures AllDigits(a + b)
    ensures DigitsValue(a + b) == DigitsValue(a) * Pow10(|b|) + DigitsValue(b)
  {
    AllDigitsAppend(a, b);
    if b == [] {
      assert a + b == a;
    } else {
      var b' := b[..|b| - 1];
      assert (a + b)[..|a + b| - 1] == a + b';
      assert (a + b)[|a + b| - 1] == b[|b| - 1];
      DigitsValueAppend(a, b');
      var va, p, vb, d := DigitsValue(a), Pow10(|b'|), DigitsValue(b'), DigitValue(b[|b| - 1]);
      assert DigitsValue(a + b) == 10 * DigitsValue(a + b') + d;
      assert DigitsValue(a + b) == 10 * (va * p + vb) + d;
      assert DigitsValue(b) == 10 * vb + d;
      assert Pow10(|b|) == 10 * p;
      ShiftStep(va, p, vb, d);
    }
  }

  lemma ShiftStep(va: int, p: int, vb: int, d: int)
    ensures 10 * (va * p + vb) + d == va * (10 * p) + (10 * vb + d)
  {
  }

  /** A year written with four digits, as `%Y` reads it. */
  function FourDigits(y: nat): (s: string)
    requires y < 10000
    ensures |s| == 4 && AllDigits(s) && DigitsValue(s) == y
  {
    var s := TwoDigits(y / 100) + TwoDigits(y % 100);
    DigitsValueAppend(TwoDigits(y / 100), TwoDigits(y % 100));
    assert Pow10(2) == 100;
    s
  }

  /** `m` cents written as `digits<point>dd`. */
  function UnsignedCents(m: nat, point: char): string {
    DigitsOf(m / 100) + [point] + TwoDigits(m % 100)
  }

  function TwoDigits(c: nat): (s: string)
    requires c < 100
    ensures |s| == 2 && AllDigits(s) && DigitsValue(s) == c
  {
    var s := [DigitChar(c / 10), DigitChar(c % 10)];
    assert s[..1] == [DigitChar(c / 10)] && s[..1][..0] == [];
    assert DigitsValue(s[..1]) == c / 10;
    s
  }

  /** `n` cents written as `[-]digits<point>dd`, with `point` one of '.' and ','. */
  function FormatCents(n: int, point: char): string {
    if n < 0 then "-" + UnsignedCents(-n, point) else UnsignedCents(n, point)
  }

  lemma ParseUnsignedCents(m: nat)
    ensures ParseUnsignedDecimal(UnsignedCents(m, '.')) == Some(CentsValue(m))
  {
    var q, c := m / 100, m % 100;
    var whole, frac := DigitsOf(q), TwoDigits(c);
    var u := UnsignedCents(m, '.');
    assert u == whole + ['.'] + frac;
    NoPointInDigits(whole);
    assert u[..|whole|] == whole;
    assert IndexOf(u, '.') == Some(|whole|);
    assert u[|whole| + 1..] == frac;
    DigitsOfValue(q);
    assert Pow10(2) == 100;
    CentsOfParts(m);
  }

  /** A cents count is its whole part plus its two-digit remainder in cents. */
  lemma CentsOfParts(m: nat)
    ensures CentsValue(m) == (m / 100) as real + (m % 100) as real / 100.0
  {
    assert m == 100 * (m / 100) + m % 100;
  }

  lemma NoPointInDigits(s: string)
    requires AllDigits(s)
    ensures '.' !in s
  {
    forall i | 0 <= i < |s| ensures s[i] != '.' {
      assert IsDigit(s[i]);
    }
  }

  /** `Decimal` reads back exactly the amount a dot-decimal string denotes. */
  lemma ParseFormatCents(n: int)
    ensures ParseDecimal(FormatCents(n, '.')) == Some(CentsValue(n))
  {
    if n < 0 {
      ParseNegativeCents(-n);
      assert FormatCents(n, '.') == "-" + UnsignedCents(-n, '.');
      CentsNegate(n);
    } else {
      ParseNonNegativeCents(n);
    }
  }

  lemma ParseNonNegativeCents(m: nat)
    ensures ParseDecimal(FormatCents(m, '.')) == Some(CentsValue(m))
  {
    var u := UnsignedCents(m, '.');
    assert FormatCents(m, '.') == u;
    ParseUnsignedCents(m);
    assert u[0] == DigitsOf(m / 100)[0];
    assert IsDigit(u[0]);
  }

  lemma ParseNegativeCents(m: nat)
    requires m > 0
    ensures ParseDecimal("-" + UnsignedCents(m, '.')) == Some(-CentsValue(m))
  {
    var s := "-" + UnsignedCents(m, '.');
    ParseUnsignedCents(m);
    assert s[1..] == UnsignedCents(m, '.');
  }

  lemma CentsNegate(n: int)
    ensures CentsValue(n) == -CentsValue(-n)
  {
  }
}
