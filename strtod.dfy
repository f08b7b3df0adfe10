/** When `strtod` reports ERANGE for a FLOATING token. The token starts on
    a digit, so `strtod` reads digits, a '.', more digits and, past the end
    of the token, an exponent if one follows ("1.5e400" is one number to
    `strtod`, though the tokenizer stops at the 'e'). The decimal number it
    reads is kept exact, as `m * 10^s`; ERANGE is decided by comparing it
    with the binary thresholds of IEEE 754 doubles under round-to-nearest:
    overflow when it rounds past DBL_MAX, underflow (as glibc decides it on
    x86-64) when it is tiny after rounding and not exactly representable. */
module Strtod {
  import opened CType
  import opened FileStream
  import opened Tokenizer
  import opened Values

  /** 10 to the power `e`. */
  function Pow10(e: nat): (r: nat)
    ensures r >= 1
  {
    if e == 0 then 1 else 10 * Pow10(e - 1)
  }

  lemma {:induction false} Pow10Add(m: nat, n: nat)
    ensures Pow10(m + n) == Pow10(m) * Pow10(n)
  {
    if n > 0 {
      Pow10Add(m, n - 1);
    }
  }

  lemma {:induction false} Pow10Grows(m: nat, n: nat)
    requires m <= n
    ensures Pow10(m) <= Pow10(n)
  {
    if m < n {
      Pow10Grows(m, n - 1);
    }
  }

  // Powers of ten and of two, written out: the verifier compares them digit
  // by digit.
  const TEN_16: nat := 10_000_000_000_000_000
  const TEN_32: nat := 100_000_000_000_000_000_000_000_000_000_000
  const TEN_64: nat := 10_000_000_000_000_000_000_000_000_000_000_000_000_000_000_000_000_000_000_000_000_000
  const TEN_128: nat := 100_000_000_000_000_000_000_000_000_000_000_000_000_000_000_000_000_000_000_000_000_000_000_000_000_000_000_000_000_000_000_000_000_000_000_000_000_000_000_000_000_000_000
  const TEN_256: nat := 10_000_000_000_000_000_000_000_000_000_000_000_000_000_000_000_000_000_000_000_000_000_000_000_000_000_000_000_000_000_000_000_000_000_000_000_000_000_000_000_000_000_000_000_000_000_000_000_000_000_000_000_000_000_000_000_000_000_000_000_000_000_000_000_000_000_000_000_000_000_000_000_000_000_000_000_000_000_000_000_000_000_000_000_000_000
  const TEN_288: nat := 1_000_000_000_000_000_000_000_000_000_000_000_000_000_000_000_000_000_000_000_000_000_000_000_000_000_000_000_000_000_000_000_000_000_000_000_000_000_000_000_000_000_000_000_000_000_000_000_000_000_000_000_000_000_000_000_000_000_000_000_000_000_000_000_000_000_000_000_000_000_000_000_000_000_000_000_000_000_000_000_000_000_000_000_000_000_000_000_000_000_000_000_000_000_000_000_000
  const TEN_304: nat := 10_000_000_000_000_000_000_000_000_000_000_000_000_000_000_000_000_000_000_000_000_000_000_000_000_000_000_000_000_000_000_000_000_000_000_000_000_000_000_000_000_000_000_000_000_000_000_000_000_000_000_000_000_000_000_000_000_000_000_000_000_000_000_000_000_000_000_000_000_000_000_000_000_000_000_000_000_000_000_000_000_000_000_000_000_000_000_000_000_000_000_000_000_000_000_000_000_000_000_000_000_000
  const TEN_307: nat := 10_000_000_000_000_000_000_000_000_000_000_000_000_000_000_000_000_000_000_000_000_000_000_000_000_000_000_000_000_000_000_000_000_000_000_000_000_000_000_000_000_000_000_000_000_000_000_000_000_000_000_000_000_000_000_000_000_000_000_000_000_000_000_000_000_000_000_000_000_000_000_000_000_000_000_000_000_000_000_000_000_000_000_000_000_000_000_000_000_000_000_000_000_000_000_000_000_000_000_000_000_000_000

  /** 2^1024 - 2^970, halfway between DBL_MAX and 2^1024: a number from
      here up rounds past DBL_MAX. */
  const OVERFLOW_AT: nat := 0xffff_ffff_ffff_fc00_0000_0000_0000_0000_0000_0000_0000_0000_0000_0000_0000_0000_0000_0000_0000_0000_0000_0000_0000_0000_0000_0000_0000_0000_0000_0000_0000_0000_0000_0000_0000_0000_0000_0000_0000_0000_0000_0000_0000_0000_0000_0000_0000_0000_0000_0000_0000_0000_0000_0000_0000_0000_0000_0000_0000_0000_0000_0000_0000_0000

  /** 2^1074: every double below 2^-1022 is a multiple of 2^-1074. */
  const TWO_1074: nat := 0x4_0000_0000_0000_0000_0000_0000_0000_0000_0000_0000_0000_0000_0000_0000_0000_0000_0000_0000_0000_0000_0000_0000_0000_0000_0000_0000_0000_0000_0000_0000_0000_0000_0000_0000_0000_0000_0000_0000_0000_0000_0000_0000_0000_0000_0000_0000_0000_0000_0000_0000_0000_0000_0000_0000_0000_0000_0000_0000_0000_0000_0000_0000_0000_0000_0000_0000_0000

  /** 2^1076 */
  const TWO_1076: nat := 0x10_0000_0000_0000_0000_0000_0000_0000_0000_0000_0000_0000_0000_0000_0000_0000_0000_0000_0000_0000_0000_0000_0000_0000_0000_0000_0000_0000_0000_0000_0000_0000_0000_0000_0000_0000_0000_0000_0000_0000_0000_0000_0000_0000_0000_0000_0000_0000_0000_0000_0000_0000_0000_0000_0000_0000_0000_0000_0000_0000_0000_0000_0000_0000_0000_0000_0000_0000

  /** 2^-1022 - 2^-1076 is TINY_NUM / 2^1076: the least number that rounds
      to 53 bits at or above the least normal double 2^-1022. */
  const TINY_NUM: nat := 0x3f_ffff_ffff_ffff

  /** The exact decimal number `m * 10^s`. */
  datatype Scientific = Scientific(m: nat, s: int)

  /** The number as the fraction Num / Den. */
  function Num(x: Scientific): nat {
    if x.s >= 0 then x.m * Pow10(x.s) else x.m
  }

  function Den(x: Scientific): nat {
    if x.s >= 0 then 1 else Pow10(-x.s)
  }

  /** The number rounds past DBL_MAX. */
  predicate Overflows(x: Scientific) {
    Num(x) >= OVERFLOW_AT * Den(x)
  }

  /** The number is not zero, is tiny after rounding to 53 bits, and is not
      a multiple of 2^-1074, so the subnormal result is inexact. */
  predicate Underflows(x: Scientific) {
    && 0 < Num(x)
    && Num(x) * TWO_1076 < TINY_NUM * Den(x)
    && (Num(x) * TWO_1074) % Den(x) != 0
  }

  /** The exponent `strtod` reads at `e`: 'e' or 'E', an optional sign and
      at least one digit; without a digit there is none, and it is 0. */
  function ExponentAt(data: seq<byte>, e: nat): int {
    if CharAt(data, e) == 'e' as int || CharAt(data, e) == 'E' as int then
      var sign := CharAt(data, e + 1);
      var q := if sign == '+' as int || sign == '-' as int then e + 2 else e + 1;
      var digits := if q <= |data| then DigitPrefix(data[q..]) else [];
      var v: int := if digits == [] then 0 else Decimal(digits);
      if sign == '-' as int then -v else v
    else 0
  }

  /** The number `strtod` reads from position `i`: the whole digits, then
      after a '.' the fraction digits, then the exponent. With no digit at
      all nothing is converted and the exponent is not read. */
  function ReadDecimal(data: seq<byte>, i: nat): (x: Scientific)
    requires i <= |data|
  {
    var whole := DigitPrefix(data[i..]);
    var j := i + |whole|;
    var point := CharAt(data, j) == '.' as int;
    var frac := if point then DigitPrefix(data[j + 1..]) else [];
    var end := if point then j + 1 + |frac| else j;
    var exp := if whole == [] && frac == [] then 0 else ExponentAt(data, end);
    Scientific(Decimal(whole) * Pow10(|frac|) + Decimal(frac), exp - |frac|)
  }

  /** `strtod(t->start, NULL)` sets errno to ERANGE. */
  predicate RangeError(data: seq<byte>, t: Token) {
    match t.start
    case At(i) => i <= |data| && (Overflows(ReadDecimal(data, i)) || Underflows(ReadDecimal(data, i)))
    case _ => false
  }

  const MsgFloatRange: string := "(parse_floating) failed to parse float: Numerical result out of range"

  // ------------------------------------------------ the thresholds in decimal

  /** Two known powers of ten multiply to the power of the sum. */
  lemma Times(e: nat, x: nat, m: nat, y: nat)
    requires Pow10(e) == x && Pow10(m) == y
    ensures Pow10(e + m) == x * y
  {
    Pow10Add(e, m);
  }

  lemma TenTo256(e: nat)
    requires e == 256
    ensures Pow10(16) == TEN_16 && Pow10(32) == TEN_32 && Pow10(e) == TEN_256
  {
    assert Pow10(4) == 10000;
    Times(4, 10000, 4, 10000);
    Times(8, 100_000_000, 8, 100_000_000);
    Times(16, TEN_16, 16, TEN_16);
    Times(32, TEN_32, 32, TEN_32);
    Times(64, TEN_64, 64, TEN_64);
    Times(128, TEN_128, 128, TEN_128);
  }

  lemma TenTo307(e: nat)
    requires e == 307
    ensures Pow10(e) == TEN_307
  {
    TenTo256(256);
    Times(256, TEN_256, 32, TEN_32);
    Times(288, TEN_288, 16, TEN_16);
    assert Pow10(3) == 1000;
    Times(304, TEN_304, 3, 1000);
  }

  /** 10^308 < 2^1024 - 2^970 <= 10^309, and 10^-307 is not tiny while
      10^-308 is. */
  lemma ThresholdsInDecimal(t: nat)
    requires t == TEN_307
    ensures 10 * t < OVERFLOW_AT <= 100 * t
    ensures TINY_NUM * t <= TWO_1076 < TINY_NUM * (10 * t)
  {
  }

  /** The powers of ten on either side of the thresholds. */
  lemma PowersNearThresholds(e: nat)
    requires e == 307
    ensures Pow10(e + 1) < OVERFLOW_AT <= Pow10(e + 2)
    ensures TINY_NUM * Pow10(e) <= TWO_1076 < TINY_NUM * Pow10(e + 1)
  {
    TenTo307(e);
    ThresholdsInDecimal(TEN_307);
    assert Pow10(e + 1) == 10 * TEN_307;
    assert Pow10(e + 2) == 100 * TEN_307;
  }

  /** 10^k rounds past DBL_MAX exactly when k >= 309, and never underflows. */
  lemma PowerOfTenOverflows(k: nat)
    ensures Overflows(Scientific(1, k)) <==> k >= 309
    ensures !Underflows(Scientific(1, k))
  {
    PowersNearThresholds(307);
    if k >= 309 {
      Pow10Grows(309, k);
    } else {
      Pow10Grows(k, 308);
    }
  }

  /** 10^-k, for k >= 1, underflows exactly when k >= 308, and never
      overflows. */
  lemma PowerOfTenUnderflows(k: nat)
    requires k >= 1
    ensures Underflows(Scientific(1, -(k as int))) <==> k >= 308
    ensures !Overflows(Scientific(1, -(k as int)))
  {
    var x := Scientific(1, -(k as int));
    var d := Pow10(k);
    assert Num(x) == 1 && Den(x) == d;
    PowersNearThresholds(307);
    if k >= 308 {
      Pow10Grows(308, k);
      assert TINY_NUM * Pow10(308) <= TINY_NUM * d;
    } else {
      Pow10Grows(k, 307);
      assert TINY_NUM * d <= TINY_NUM * Pow10(307);
    }
    assert OVERFLOW_AT * d >= OVERFLOW_AT > 1;
    Inexact(k);
  }

  /** 10^k, for k >= 1, is a multiple of 5, and 2^1074 is not. */
  lemma Inexact(k: nat)
    requires k >= 1
    ensures TWO_1074 % Pow10(k) != 0
  {
    var c := 2 * Pow10(k - 1);
    assert Pow10(k) == 5 * c;
    FiveDoesNotDivide(TWO_1074);
    NoMultipleOfFiveDivides(TWO_1074, Pow10(k), c);
  }

  /** A number that is not a multiple of 5 is not a multiple of 5 * c. */
  lemma NoMultipleOfFiveDivides(x: nat, d: nat, c: nat)
    requires d == 5 * c && c >= 1 && x % 5 != 0
    ensures x % d != 0
  {
    var r := x % d;
    assert x == d * (x / d) + r;
    assert x == 5 * (c * (x / d)) + r;
    ModFive(x, c * (x / d), r);
  }

  lemma ModFive(x: int, m: int, r: int)
    requires x == 5 * m + r
    ensures x % 5 == r % 5
  {
  }

  lemma FiveDoesNotDivide(x: nat)
    requires x == TWO_1074
    ensures x % 5 == 4
  {
  }

  // -------------------------------------------------------- the literals

  function Zeros(n: nat): (s: seq<byte>)
    ensures |s| == n && AllDigits(s)
  {
    seq(n, _ => 48)
  }

  lemma {:induction false} DecimalOfOneThenZeros(n: nat)
    ensures AllDigits([49] + Zeros(n)) && Decimal([49] + Zeros(n)) == Pow10(n)
  {
    var s := [49] + Zeros(n);
    if n > 0 {
      assert s[..|s| - 1] == [49] + Zeros(n - 1);
      DecimalOfOneThenZeros(n - 1);
    } else {
      assert s[..0] == [];
    }
  }

  lemma {:induction false} DecimalOfZerosThenOne(n: nat)
    ensures AllDigits(Zeros(n) + [49]) && Decimal(Zeros(n) + [49]) == 1
  {
    var s := Zeros(n) + [49];
    assert s[..|s| - 1] == Zeros(n);
    DecimalOfZeros(n);
  }

  lemma {:induction false} DecimalOfZeros(n: nat)
    ensures Decimal(Zeros(n)) == 0
  {
    if n > 0 {
      assert Zeros(n)[..n - 1] == Zeros(n - 1);
      DecimalOfZeros(n - 1);
    }
  }

  /** "1", `n` zeros and "." (followed by a space) is out of range exactly
      when it has at least 310 digits: 10^309 rounds past DBL_MAX and 10^308
      does not. */
  lemma LongLiteralOverflows(n: nat)
    ensures var data := [49] + Zeros(n) + [46, 32];
      RangeError(data, Token(Floating, At(0), At(n + 2))) <==> n >= 309
  {
    var data := [49] + Zeros(n) + [46, 32];
    var whole := [49] + Zeros(n);
    DecimalOfOneThenZeros(n);
    assert data == whole + [46, 32];
    DigitPrefixOfRun(whole, [46, 32]);
    assert data[0..] == data;
    assert data[n + 2..] == [32];
    assert DigitPrefix([32]) == [];
    assert Decimal([]) == 0;
    assert ReadDecimal(data, 0) == Scientific(Pow10(n), 0);
    assert Pow10(n) == Num(Scientific(1, n));
    PowerOfTenOverflows(n);
  }

  /** "0.", `n` zeros and "1" (followed by a space) is out of range exactly
      when 10^-(n+1) is tiny: from n = 307 on. */
  lemma SmallLiteralUnderflows(n: nat)
    ensures var data := [48, 46] + Zeros(n) + [49, 32];
      RangeError(data, Token(Floating, At(0), At(n + 3))) <==> n >= 307
  {
    var data := [48, 46] + Zeros(n) + [49, 32];
    var frac := Zeros(n) + [49];
    DecimalOfZerosThenOne(n);
    assert data == [48] + ([46] + frac + [32]);
    DigitPrefixOfRun([48], [46] + frac + [32]);
    assert data[0..] == data;
    assert data[2..] == frac + [32];
    DigitPrefixOfRun(frac, [32]);
    assert Decimal([48]) == 0;
    assert ReadDecimal(data, 0) == Scientific(1, -(n + 1));
    PowerOfTenUnderflows(n + 1);
  }

  /** The buffer "1.e<n> ". */
  function ExponentBytes(n: nat): seq<byte> {
    [49, 46, 101] + DigitsOf(n) + [32]
  }

  /** The tokenizer reads "1." and stops at the 'e'. */
  lemma ExponentIsNotInToken(n: nat)
    ensures ReadToken(ExponentBytes(n), 0) == Lexed(Token(Floating, At(0), At(2)), 2, [])
  {
    var data := ExponentBytes(n);
    assert SkipWhile(data, 0, IsSpace) == 0;
    assert SkipWhile(data, 1, IsDigit) == 1;
    assert SkipWhile(data, 0, IsDigit) == 1;
    assert SkipWhile(data, 2, IsDigit) == 2;
  }

  /** `strtod` reads "1.e<n>" as 10^n. */
  lemma ExponentIsRead(n: nat)
    ensures ReadDecimal(ExponentBytes(n), 0) == Scientific(1, n)
  {
    var data := ExponentBytes(n);
    var digits := DigitsOf(n);
    assert data == [49] + ([46, 101] + digits + [32]);
    DigitPrefixOfRun([49], [46, 101] + digits + [32]);
    assert data[0..] == data;
    assert data[2..] == [101] + digits + [32];
    assert DigitPrefix(data[2..]) == [];
    assert data[3..] == digits + [32];
    DigitPrefixOfRun(digits, [32]);
    DecimalOfDigits(n);
    assert Decimal([49]) == 1;
    assert ExponentAt(data, 2) == n;
  }

  /** "1.e" followed by the digits of `n`: the token is "1.", but `strtod`
      reads the exponent too, so the literal is out of range exactly when
      n >= 309. */
  lemma ExponentReadPastToken(n: nat)
    ensures ReadToken(ExponentBytes(n), 0) == Lexed(Token(Floating, At(0), At(2)), 2, [])
    ensures RangeError(ExponentBytes(n), Token(Floating, At(0), At(2))) <==> n >= 309
  {
    ExponentIsNotInToken(n);
    ExponentIsRead(n);
    PowerOfTenOverflows(n);
  }
}
