/** Values and the arithmetic of one reduction: integer/float promotion,
    operator ranks and literal parsing. Integers are 64-bit and signed; an
    operation whose C meaning is undefined (overflow, division by zero) has
    the outcome `OpUndefined`. Doubles are kept symbolic: a double is the
    term that computed it, so only kinds and promotion are checked. */
module Values {
  import opened CType
  import opened FileStream
  import opened Tokenizer

  const INT64_MIN: int := -0x8000_0000_0000_0000
  const INT64_MAX: int := 0x7fff_ffff_ffff_ffff

  predicate InInt64(x: int) { INT64_MIN <= x <= INT64_MAX }

  /** A double, as the term that produced it. `Zero` is the 0.0 a
      zero-initialised result holds when no operator case matched. */
  datatype Double =
    | Literal(text: seq<byte>)
    | OfInt(i: int)
    | Sum(x: Double, y: Double)
    | Difference(x: Double, y: Double)
    | Product(x: Double, y: Double)
    | Quotient(x: Double, y: Double)
    | Zero

  datatype Value = Int(i: int) | Float(f: Double)

  function ValueTypeName(v: Value): string {
    if v.Int? then "VALUE_INTEGER" else "VALUE_FLOATING"
  }

  // ------------------------------------------------------------- promotion

  datatype Converted = Converted(v: Value) | ConvFailed(msg: string)

  /** `conv_int_to_float`: an integer becomes the double of the same value;
      anything else is refused. */
  function ConvIntToFloat(v: Value): (r: Converted)
    ensures r.Converted? <==> v.Int?
    ensures r.Converted? ==> r.v.Float? && r.v.f == OfInt(v.i)
  {
    match v
    case Int(i) => Converted(Float(OfInt(i)))
    case Float(_) =>
      ConvFailed("(conv_int_to_float) conversion from VALUE_FLOATING to float not implemented")
  }

  /** The operands after promotion: an integer beside a double is converted. */
  function Promote(l: Value, r: Value): (Value, Value) {
    if l.Float? && r.Int? then (l, ConvIntToFloat(r).v)
    else if l.Int? && r.Float? then (ConvIntToFloat(l).v, r)
    else (l, r)
  }

  // ------------------------------------------------------------ arithmetic

  function Abs(x: int): nat { if x < 0 then -x else x }

  /** C's `/` on integers: the quotient truncated toward zero. */
  function TruncDiv(a: int, b: int): int
    requires b != 0
  {
    var q := Abs(a) / Abs(b);
    if (a < 0) == (b < 0) then q else -q
  }

  /** Truncating division leaves a remainder smaller than the divisor with
      the sign of the dividend, so the quotient never exceeds the exact one
      in magnitude. */
  lemma TruncDivRemainder(a: int, b: int)
    requires b != 0
    ensures var r := a - TruncDiv(a, b) * b;
      Abs(r) < Abs(b) && (r == 0 || (r < 0 <==> a < 0))
  {
    var q := Abs(a) / Abs(b);
    var rr := Abs(a) % Abs(b);
    assert Abs(a) == q * Abs(b) + rr;
    if a < 0 && b < 0 {
      assert TruncDiv(a, b) * b == q * b;
      assert a - q * b == -(Abs(a) - q * Abs(b));
    } else if a < 0 {
      assert TruncDiv(a, b) * b == (-q) * b;
      assert a - (-q) * b == -(Abs(a) - q * Abs(b));
    } else if b < 0 {
      assert TruncDiv(a, b) * b == (-q) * b;
      assert a - (-q) * b == Abs(a) - q * Abs(b);
    } else {
      assert a - q * b == Abs(a) - q * Abs(b);
    }
  }

  datatype OpResult = Computed(v: Value) | OpFailed(msgs: seq<string>) | OpUndefined

  /** An int64 result, or undefined behaviour when it overflows. */
  function Checked(x: int): OpResult {
    if InInt64(x) then Computed(Int(x)) else OpUndefined
  }

  /** The integer switch of `binary_op` on the operator's first character. */
  function IntArith(c: int, a: int, b: int): OpResult {
    if c == '+' as int then Checked(a + b)
    else if c == '*' as int then Checked(a * b)
    else if c == '-' as int then Checked(a - b)
    else if c == '/' as int then (if b == 0 then OpUndefined else Checked(TruncDiv(a, b)))
    else Computed(Int(0))
  }

  /** The double switch of `binary_op`. */
  function FloatArith(c: int, x: Double, y: Double): Double {
    if c == '+' as int then Sum(x, y)
    else if c == '*' as int then Product(x, y)
    else if c == '-' as int then Difference(x, y)
    else if c == '/' as int then Quotient(x, y)
    else Zero
  }

  /** `op->start[0]`: the first character of a token. */
  function FirstChar(data: seq<byte>, t: Token): int {
    match t.start
    case At(i) => CharAt(data, i)
    case _ => EOF
  }

  function BinaryOpTypeMsg(l: Value, r: Value, op: Token): string {
    "binary_op: unexpected token types: " + ValueTypeName(l) + " " + ValueTypeName(r)
    + " " + KindName(op.kind)
  }

  /** `binary_op`: refuse a non-operator token, promote, then compute by the
      operator's first character in the common kind. */
  function BinaryOp(data: seq<byte>, l: Value, r: Value, op: Token): OpResult {
    if op.kind != Operator then OpFailed([BinaryOpTypeMsg(l, r, op)])
    else
      var (pl, pr) := Promote(l, r);
      var c := FirstChar(data, op);
      if pl.Int? && pr.Int? then IntArith(c, pl.i, pr.i)
      else if pl.Float? && pr.Float? then Computed(Float(FloatArith(c, pl.f, pr.f)))
      else Computed(Int(0))
  }

  /** Only an operator token is applied: any other kind (a '(' left on the
      operator stack) fails with one message and no value. */
  lemma BinaryOpNeedsOperator(data: seq<byte>, l: Value, r: Value, op: Token)
    ensures BinaryOp(data, l, r, op).OpFailed? <==> op.kind != Operator
    ensures op.kind != Operator ==> |BinaryOp(data, l, r, op).msgs| == 1
  {
  }

  /** Promotion: with an operator token the result is a double exactly when
      either operand is one, and an integer operand beside a double enters
      the computation as the double of its value. Two integers give an
      integer (or undefined behaviour). */
  lemma PromotionRule(data: seq<byte>, l: Value, r: Value, op: Token)
    requires op.kind == Operator
    ensures var res := BinaryOp(data, l, r, op);
      && (l.Float? || r.Float? ==> res.Computed? && res.v.Float?)
      && (l.Int? && r.Int? ==> res.OpUndefined? || (res.Computed? && res.v.Int?))
      && (l.Int? && r.Float? ==> res.v.f == FloatArith(FirstChar(data, op), OfInt(l.i), r.f))
      && (l.Float? && r.Int? ==> res.v.f == FloatArith(FirstChar(data, op), l.f, OfInt(r.i)))
  {
  }

  /** Integer arithmetic is exact when the result fits in 64 bits, '/'
      truncates toward zero, overflow and a zero divisor are undefined, and
      a first character other than + - * / yields a zero of the common kind. */
  lemma IntegerArithmetic(c: int, a: int, b: int)
    ensures c == '+' as int ==> (IntArith(c, a, b) == Computed(Int(a + b)) <==> InInt64(a + b))
    ensures c == '-' as int ==> (IntArith(c, a, b) == Computed(Int(a - b)) <==> InInt64(a - b))
    ensures c == '*' as int ==> (IntArith(c, a, b) == Computed(Int(a * b)) <==> InInt64(a * b))
    ensures c == '+' as int && !InInt64(a + b) ==> IntArith(c, a, b).OpUndefined?
    ensures c == '-' as int && !InInt64(a - b) ==> IntArith(c, a, b).OpUndefined?
    ensures c == '*' as int && !InInt64(a * b) ==> IntArith(c, a, b).OpUndefined?
    ensures c == '/' as int && b != 0 && InInt64(TruncDiv(a, b)) ==>
      Abs(a - IntArith(c, a, b).v.i * b) < Abs(b)
      && (a - IntArith(c, a, b).v.i * b == 0 || (a - IntArith(c, a, b).v.i * b < 0 <==> a < 0))
    ensures c == '/' as int && b != 0 && !InInt64(TruncDiv(a, b)) ==> IntArith(c, a, b).OpUndefined?
    ensures c == '/' as int && b == 0 ==> IntArith(c, a, b).OpUndefined?
    ensures c !in {'+' as int, '-' as int, '*' as int, '/' as int} ==>
      IntArith(c, a, b) == Computed(Int(0)) && FloatArith(c, Zero, Zero) == Zero
  {
    if c == '/' as int && b != 0 {
      TruncDivRemainder(a, b);
    }
  }

  /** The worked examples: 7 / 2 is 3 and -7 / 2 is -3; INT64_MIN / -1
      overflows. */
  lemma DivisionExamples()
    ensures IntArith('/' as int, 7, 2) == Computed(Int(3))
    ensures IntArith('/' as int, -7, 2) == Computed(Int(-3))
    ensures IntArith('/' as int, INT64_MIN, -1) == OpUndefined
  {
  }

  // ------------------------------------------------------------- operator rank

  /** An out-of-range constant stored in an `int8_t`: two's complement wrap. */
  function Int8(x: int): int {
    (x + 128) % 256 - 128
  }

  /** `operator_precedence`: the rank table indexed by the first character. */
  function Precedence(c: int): int {
    if c == '+' as int || c == '-' as int then -20
    else if c == '*' as int || c == '/' as int then -10
    else if c == '(' as int || c == ')' as int then Int8(128)
    else 0
  }

  /** '+' and '-' rank -20, '*' and '/' rank -10, any other character 0, and
      the parentheses' 128 wraps to -128, below every operator. */
  lemma PrecedenceTable(c: int)
    ensures Precedence('+' as int) == Precedence('-' as int) == -20
    ensures Precedence('*' as int) == Precedence('/' as int) == -10
    ensures Precedence('(' as int) == Precedence(')' as int) == -128
    ensures c !in {'+' as int, '-' as int, '*' as int, '/' as int, '(' as int, ')' as int} ==> Precedence(c) == 0
    ensures c != '(' as int && c != ')' as int ==> Precedence('(' as int) < Precedence(c)
  {
  }

  // ---------------------------------------------------------- literals

  predicate AllDigits(s: seq<byte>) {
    forall k :: 0 <= k < |s| ==> IsDigit(s[k] as int)
  }

  /** The value of a decimal digit string (what `strtol` computes in base 10). */
  function Decimal(s: seq<byte>): nat
    requires AllDigits(s)
  {
    if s == [] then 0 else 10 * Decimal(s[..|s| - 1]) + (s[|s| - 1] as int - '0' as int)
  }

  /** The decimal digits of `n`, most significant first, with no leading zero. */
  function DigitsOf(n: nat): (s: seq<byte>)
    ensures AllDigits(s) && |s| > 0
    decreases n
  {
    (if n >= 10 then DigitsOf(n / 10) else []) + [('0' as int + n % 10) as byte]
  }

  /** Reading back the digits of a number gives the number. */
  lemma {:induction false} DecimalOfDigits(n: nat)
    ensures Decimal(DigitsOf(n)) == n
    decreases n
  {
    var s := DigitsOf(n);
    assert s[..|s| - 1] == if n >= 10 then DigitsOf(n / 10) else [];
    if n >= 10 {
      DecimalOfDigits(n / 10);
    }
  }

  /** The bytes of a token's span: up to its end, or to the end of the
      buffer when its end is the EOF sentinel. */
  function SpanText(data: seq<byte>, t: Token): seq<byte> {
    match (t.start, t.end)
    case (At(i), At(j)) => if i <= j <= |data| then data[i..j] else []
    case (At(i), Sentinel) => if i <= |data| then data[i..] else []
    case _ => []
  }

  const MsgIntRange: string := "(parse_int) failed to parse int: Numerical result out of range"

  /** The longest prefix of `s` made of digits: where `strtol` stops. */
  function DigitPrefix(s: seq<byte>): (d: seq<byte>)
    ensures AllDigits(d) && d <= s
    ensures |d| == |s| || !IsDigit(s[|d|] as int)
  {
    if s != [] && IsDigit(s[0] as int) then [s[0]] + DigitPrefix(s[1..]) else []
  }

  /** A digit run followed by a non-digit (or nothing) is exactly the prefix
      `strtol` reads. */
  lemma {:induction false} DigitPrefixOfRun(s: seq<byte>, rest: seq<byte>)
    requires AllDigits(s) && (rest == [] || !IsDigit(rest[0] as int))
    ensures DigitPrefix(s + rest) == s
  {
    if s != [] {
      assert (s + rest)[1..] == s[1..] + rest;
      DigitPrefixOfRun(s[1..], rest);
    } else {
      assert s + rest == rest;
    }
  }

  /** `strtol(start, NULL, 10)` on an integer token: the value of the digits
      from its start (exactly its span), or ERANGE above LONG_MAX, which is
      INT64_MAX where `long` has 64 bits. */
  function IntLiteral(data: seq<byte>, t: Token): (r: Option<int>)
    ensures r.Some? ==> 0 <= r.value <= INT64_MAX
    ensures r.None? <==> Decimal(DigitPrefix(SpanText(data, t))) > INT64_MAX
    ensures r.Some? ==> r.value == Decimal(DigitPrefix(SpanText(data, t)))
  {
    var digits := DigitPrefix(SpanText(data, t));
    if Decimal(digits) <= INT64_MAX then Some(Decimal(digits)) else None
  }

  /** Round trip: a token whose text is the decimal digits of `n`, followed
      in the buffer by anything, reads back as `n`, or as ERANGE exactly
      when `n` does not fit. */
  lemma IntLiteralReadsDigits(data: seq<byte>, t: Token, n: nat)
    requires SpanText(data, t) == DigitsOf(n)
    ensures IntLiteral(data, t) == if n <= INT64_MAX then Some(n) else None
  {
    DigitPrefixOfRun(DigitsOf(n), []);
    assert DigitsOf(n) + [] == DigitsOf(n);
    DecimalOfDigits(n);
  }

  datatype Option<T> = None | Some(value: T)
}
