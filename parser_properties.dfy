/** Properties of the statement evaluator on whole statements: a chain of
    one operator, "a o b o c ;", and what it evaluates to. */
module ParserProperties {
  import opened CType
  import opened FileStream
  import opened Tokenizer
  import opened Values
  import opened Parser

  function Tok(k: TokenKind, i: nat, j: nat): Token { Token(k, At(i), At(j)) }

  /** The bytes of the line "a o b o c ;": one-digit numbers and a
      one-character operator, separated by single spaces, and a newline
      after the ';' (so the cursor is short of the end when `main` first
      tests it, and `parser_next` runs). */
  function ChainBytes(a: byte, o: byte, b: byte, c: byte): seq<byte> {
    [a, 32, o, 32, b, 32, o, 32, c, 32, 59, 10]
  }

  /** The numbers are digits and the operator is one of + - * /. */
  predicate ChainShape(a: byte, o: byte, b: byte, c: byte) {
    && 48 <= a <= 57 && 48 <= b <= 57 && 48 <= c <= 57
    && (o == 43 || o == 45 || o == 42 || o == 47)
  }

  /** The stream over "a o b o c ;" before the `i`th advance of the scan. */
  function ChainStream(d: seq<byte>, i: nat): TS {
    if i == 0 then TS(d, 3, Tok(Integer, 0, 1), Tok(Operator, 2, 3))
    else if i == 1 then TS(d, 5, Tok(Operator, 2, 3), Tok(Integer, 4, 5))
    else if i == 2 then TS(d, 7, Tok(Integer, 4, 5), Tok(Operator, 6, 7))
    else if i == 3 then TS(d, 9, Tok(Operator, 6, 7), Tok(Integer, 8, 9))
    else if i == 4 then TS(d, 11, Tok(Integer, 8, 9), Tok(StatementEnd, 10, 11))
    else TS(d, 12, Tok(StatementEnd, 10, 11), Blank)
  }

  /** A single space before a non-space character is skipped. */
  lemma SpaceThen(d: seq<byte>, p: nat)
    requires p + 1 < |d| && d[p] == 32 && !IsSpace(SignedChar(d[p + 1]))
    ensures SkipWhile(d, p, IsSpace) == p + 1 == SkipWhile(d, p + 1, IsSpace)
  {
  }

  /** A digit followed by a space is an integer token of one character. */
  lemma DigitToken(d: seq<byte>, p: nat)
    requires p + 1 < |d| && 48 <= d[p] <= 57 && d[p + 1] == 32
    ensures ReadToken(d, p) == Lexed(Tok(Integer, p, p + 1), p + 1, [])
  {
    assert SkipWhile(d, p + 1, IsDigit) == p + 1;
    assert SkipWhile(d, p, IsDigit) == p + 1;
    assert SkipWhile(d, p, IsSpace) == p;
  }

  /** One of + - * / followed by a space is an operator token of one
      character. */
  lemma OperatorToken(d: seq<byte>, p: nat)
    requires p + 1 < |d| && (d[p] == 43 || d[p] == 45 || d[p] == 42 || d[p] == 47) && d[p + 1] == 32
    ensures ReadToken(d, p) == Lexed(Tok(Operator, p, p + 1), p + 1, [])
  {
    assert SkipWhile(d, p + 1, IsOperatorChar) == p + 1;
    assert SkipWhile(d, p, IsOperatorChar) == p + 1;
    assert SkipWhile(d, p, IsSpace) == p;
  }

  /** A ';' before another byte is a token of one character. */
  lemma SemicolonToken(d: seq<byte>, p: nat)
    requires p + 1 < |d| && d[p] == 59
    ensures ReadToken(d, p) == Lexed(Tok(StatementEnd, p, p + 1), p + 1, [])
  {
    assert SkipWhile(d, p, IsSpace) == p;
  }

  /** A final newline is skipped as white space. */
  lemma FinalNewlineSkipped(d: seq<byte>)
    requires |d| >= 1 && d[|d| - 1] == 10
    ensures SkipWhile(d, |d| - 1, IsSpace) == |d|
  {
    assert SkipWhile(d, |d|, IsSpace) == |d|;
  }

  /** At the end of the buffer the read yields EOF. */
  lemma EndToken(d: seq<byte>)
    ensures SkipWhile(d, |d|, IsSpace) == |d|
    ensures ReadToken(d, |d|) == Lexed(Blank, |d|, [])
  {
  }

  lemma ChainOpens(a: byte, o: byte, b: byte, c: byte)
    requires ChainShape(a, o, b, c)
    ensures Open(ChainBytes(a, o, b, c)) == Advanced(ChainStream(ChainBytes(a, o, b, c), 0), [])
  {
    var d := ChainBytes(a, o, b, c);
    assert SkipWhile(d, 0, IsSpace) == 0;
    DigitToken(d, 0);
    assert AdvanceSpec(TS(d, 0, Blank, Blank)) == Advanced(TS(d, 1, Blank, Tok(Integer, 0, 1)), []);
    SpaceThen(d, 1);
    OperatorToken(d, 2);
    assert AdvanceSpec(TS(d, 1, Blank, Tok(Integer, 0, 1))) == Advanced(ChainStream(d, 0), []);
  }

  lemma ChainAdvances(a: byte, o: byte, b: byte, c: byte, i: nat)
    requires ChainShape(a, o, b, c) && i < 5
    ensures AdvanceSpec(ChainStream(ChainBytes(a, o, b, c), i)) == Advanced(ChainStream(ChainBytes(a, o, b, c), i + 1), [])
  {
    var d := ChainBytes(a, o, b, c);
    if i == 0 {
      SpaceThen(d, 3);
      DigitToken(d, 4);
    } else if i == 1 {
      SpaceThen(d, 5);
      OperatorToken(d, 6);
    } else if i == 2 {
      SpaceThen(d, 7);
      DigitToken(d, 8);
    } else if i == 3 {
      SpaceThen(d, 9);
      SemicolonToken(d, 10);
    } else {
      FinalNewlineSkipped(d);
      EndToken(d);
    }
  }

  /** A lone digit reads as its value. */
  lemma OneDigit(x: byte)
    requires 48 <= x <= 57
    ensures DigitPrefix([x]) == [x] && Decimal([x]) == x as int - 48
  {
    assert [x][1..] == [];
    assert [x][..0] == [];
  }

  lemma ChainLiterals(a: byte, o: byte, b: byte, c: byte)
    requires ChainShape(a, o, b, c)
    ensures var d := ChainBytes(a, o, b, c);
      && IntLiteral(d, Tok(Integer, 0, 1)) == Some(a as int - 48)
      && IntLiteral(d, Tok(Integer, 4, 5)) == Some(b as int - 48)
      && IntLiteral(d, Tok(Integer, 8, 9)) == Some(c as int - 48)
  {
    var d := ChainBytes(a, o, b, c);
    OneDigit(a);
    OneDigit(b);
    OneDigit(c);
    assert SpanText(d, Tok(Integer, 0, 1)) == [a];
    assert SpanText(d, Tok(Integer, 4, 5)) == [b];
    assert SpanText(d, Tok(Integer, 8, 9)) == [c];
  }

  // One pass of the loop, for each kind of token that continues it.

  lemma IntegerPass(s: Scan, n: int, u: TS)
    requires Lookahead(s.ts) && s.ts.cur.kind == Integer && |s.vals| < 256
    requires IntLiteral(s.ts.data, s.ts.cur) == Some(n) && AdvanceSpec(s.ts) == Advanced(u, [])
    ensures Lookahead(u) && ScanExpr(s) == ScanExpr(Scan(u, s.ops, s.vals + [Int(n)]))
  {
    assert ScanStep(s) == Continue(Scan(u, s.ops, s.vals + [Int(n)]));
    Continues(s);
  }

  lemma OperatorPass(s: Scan, o: seq<Token>, v: seq<Value>, u: TS)
    requires Lookahead(s.ts) && s.ts.cur.kind == Operator && |o| < 256
    requires (if |s.ops| == 0 then Reduced(s.ops, s.vals) else ReduceLower(s.ts.data, s.ts.cur, s.ops, s.vals)) == Reduced(o, v)
    requires AdvanceSpec(s.ts) == Advanced(u, [])
    ensures Lookahead(u) && ScanExpr(s) == ScanExpr(Scan(u, o + [s.ts.cur], v))
  {
    assert ScanStep(s) == Continue(Scan(u, o + [s.ts.cur], v));
    Continues(s);
  }

  lemma Continues(s: Scan)
    requires Lookahead(s.ts) && ScanStep(s).Continue?
    ensures ScanExpr(s) == ScanExpr(ScanStep(s).next)
  {
  }

  lemma EndPass(s: Scan)
    requires Lookahead(s.ts) && s.ts.cur.kind in {StatementEnd, Eof, Unknown, String, If}
    ensures ScanExpr(s) == Finish(s)
  {
  }

  /** What the scan of "a o b o c ;" needs to know of the buffer: its
      tokens, the numbers' values and the operator character. */
  predicate ChainFacts(d: seq<byte>, a: int, b: int, c: int, o: int) {
    && AdvanceSpec(ChainStream(d, 0)) == Advanced(ChainStream(d, 1), [])
    && AdvanceSpec(ChainStream(d, 1)) == Advanced(ChainStream(d, 2), [])
    && AdvanceSpec(ChainStream(d, 2)) == Advanced(ChainStream(d, 3), [])
    && AdvanceSpec(ChainStream(d, 3)) == Advanced(ChainStream(d, 4), [])
    && AdvanceSpec(ChainStream(d, 4)) == Advanced(ChainStream(d, 5), [])
    && IntLiteral(d, Tok(Integer, 0, 1)) == Some(a)
    && IntLiteral(d, Tok(Integer, 4, 5)) == Some(b)
    && IntLiteral(d, Tok(Integer, 8, 9)) == Some(c)
    && FirstChar(d, Tok(Operator, 2, 3)) == o
    && FirstChar(d, Tok(Operator, 6, 7)) == o
    && Lookahead(ChainStream(d, 0))
  }

  lemma ChainFactsHold(a: byte, o: byte, b: byte, c: byte)
    requires ChainShape(a, o, b, c)
    ensures ChainFacts(ChainBytes(a, o, b, c), a as int - 48, b as int - 48, c as int - 48, o as int)
  {
    ChainLiterals(a, o, b, c);
    ChainAdvances(a, o, b, c, 0);
    ChainAdvances(a, o, b, c, 1);
    ChainAdvances(a, o, b, c, 2);
    ChainAdvances(a, o, b, c, 3);
    ChainAdvances(a, o, b, c, 4);
  }

  lemma ChainScanStart(d: seq<byte>, a: int, b: int)
    requires Lookahead(ChainStream(d, 0))
    requires AdvanceSpec(ChainStream(d, 0)) == Advanced(ChainStream(d, 1), [])
    requires AdvanceSpec(ChainStream(d, 1)) == Advanced(ChainStream(d, 2), [])
    requires AdvanceSpec(ChainStream(d, 2)) == Advanced(ChainStream(d, 3), [])
    requires IntLiteral(d, Tok(Integer, 0, 1)) == Some(a)
    requires IntLiteral(d, Tok(Integer, 4, 5)) == Some(b)
    ensures Lookahead(ChainStream(d, 3))
    ensures ScanExpr(Scan(ChainStream(d, 0), [], []))
      == ScanExpr(Scan(ChainStream(d, 3), [Tok(Operator, 2, 3)], [Int(a), Int(b)]))
  {
    var m1 := Tok(Operator, 2, 3);
    var t0, t1, t2, t3 := ChainStream(d, 0), ChainStream(d, 1), ChainStream(d, 2), ChainStream(d, 3);
    IntegerPass(Scan(t0, [], []), a, t1);
    assert [] + [Int(a)] == [Int(a)];
    OperatorPass(Scan(t1, [], [Int(a)]), [], [Int(a)], t2);
    assert [] + [m1] == [m1];
    IntegerPass(Scan(t2, [m1], [Int(a)]), b, t3);
    assert [Int(a)] + [Int(b)] == [Int(a), Int(b)];
  }

  /** The second operator has the rank of the first, so it is pushed
      without a reduction. */
  lemma ChainScanSecondOperator(d: seq<byte>, a: int, b: int, o: int)
    requires Lookahead(ChainStream(d, 3))
    requires AdvanceSpec(ChainStream(d, 3)) == Advanced(ChainStream(d, 4), [])
    requires FirstChar(d, Tok(Operator, 2, 3)) == o
    requires FirstChar(d, Tok(Operator, 6, 7)) == o
    ensures Lookahead(ChainStream(d, 4))
    ensures ScanExpr(Scan(ChainStream(d, 3), [Tok(Operator, 2, 3)], [Int(a), Int(b)]))
      == ScanExpr(Scan(ChainStream(d, 4), [Tok(Operator, 2, 3), Tok(Operator, 6, 7)], [Int(a), Int(b)]))
  {
    var m1, m2 := Tok(Operator, 2, 3), Tok(Operator, 6, 7);
    assert Rank(d, m2) == Rank(d, m1);
    assert ReduceLower(d, m2, [m1], [Int(a), Int(b)]) == Reduced([m1], [Int(a), Int(b)]);
    OperatorPass(Scan(ChainStream(d, 3), [m1], [Int(a), Int(b)]), [m1], [Int(a), Int(b)], ChainStream(d, 4));
    assert [m1] + [m2] == [m1, m2];
  }

  lemma ChainScanLastNumber(d: seq<byte>, a: int, b: int, c: int)
    requires Lookahead(ChainStream(d, 4))
    requires AdvanceSpec(ChainStream(d, 4)) == Advanced(ChainStream(d, 5), [])
    requires IntLiteral(d, Tok(Integer, 8, 9)) == Some(c)
    ensures Lookahead(ChainStream(d, 5))
    ensures ScanExpr(Scan(ChainStream(d, 4), [Tok(Operator, 2, 3), Tok(Operator, 6, 7)], [Int(a), Int(b)]))
      == ScanExpr(Scan(ChainStream(d, 5), [Tok(Operator, 2, 3), Tok(Operator, 6, 7)], [Int(a), Int(b), Int(c)]))
  {
    var ms := [Tok(Operator, 2, 3), Tok(Operator, 6, 7)];
    IntegerPass(Scan(ChainStream(d, 4), ms, [Int(a), Int(b)]), c, ChainStream(d, 5));
    assert [Int(a), Int(b)] + [Int(c)] == [Int(a), Int(b), Int(c)];
  }

  /** The drain applies the second operator first: a o (b o c). */
  lemma ChainDrain(d: seq<byte>, a: int, b: int, c: int, o: int, inner: int, outer: int)
    requires FirstChar(d, Tok(Operator, 2, 3)) == o
    requires FirstChar(d, Tok(Operator, 6, 7)) == o
    requires IntArith(o, b, c) == Computed(Int(inner)) && IntArith(o, a, inner) == Computed(Int(outer))
    ensures Drain(d, [Tok(Operator, 2, 3), Tok(Operator, 6, 7)], [Int(a), Int(b), Int(c)]) == Reduced([], [Int(outer)])
  {
    var m1, m2 := Tok(Operator, 2, 3), Tok(Operator, 6, 7);
    assert ReduceOnce(d, [m1, m2], [Int(a), Int(b), Int(c)]) == Reduced([m1], [Int(a), Int(inner)]);
    assert ReduceOnce(d, [m1], [Int(a), Int(inner)]) == Reduced([], [Int(outer)]);
    assert Drain(d, [m1], [Int(a), Int(inner)]) == Reduced([], [Int(outer)]);
  }

  lemma ChainScanEnd(d: seq<byte>, a: int, b: int, c: int, o: int, inner: int, outer: int)
    requires Lookahead(ChainStream(d, 5))
    requires FirstChar(d, Tok(Operator, 2, 3)) == o
    requires FirstChar(d, Tok(Operator, 6, 7)) == o
    requires IntArith(o, b, c) == Computed(Int(inner)) && IntArith(o, a, inner) == Computed(Int(outer))
    ensures ScanExpr(Scan(ChainStream(d, 5), [Tok(Operator, 2, 3), Tok(Operator, 6, 7)], [Int(a), Int(b), Int(c)]))
      == Halted(ChainStream(d, 5), [], Returned(Int(outer)))
  {
    EndPass(Scan(ChainStream(d, 5), [Tok(Operator, 2, 3), Tok(Operator, 6, 7)], [Int(a), Int(b), Int(c)]));
    ChainDrain(d, a, b, c, o, inner, outer);
  }

  /** Operators of equal rank are not reduced when the second arrives, so
      for any digits and any of + - * /, "a o b o c ;" is evaluated as
      a o (b o c) whenever that is defined, and the stream is left on the
      ';'. */
  lemma ChainGroupsRight(a: byte, o: byte, b: byte, c: byte, inner: int, outer: int)
    requires ChainShape(a, o, b, c)
    requires IntArith(o as int, b as int - 48, c as int - 48) == Computed(Int(inner))
    requires IntArith(o as int, a as int - 48, inner) == Computed(Int(outer))
    ensures var d := ChainBytes(a, o, b, c);
      && Open(d) == Advanced(ChainStream(d, 0), [])
      && Lookahead(ChainStream(d, 0))
      && ParseExprSpec(ChainStream(d, 0)) == Halted(ChainStream(d, 5), [], Returned(Int(outer)))
  {
    var d := ChainBytes(a, o, b, c);
    var a', b', c' := a as int - 48, b as int - 48, c as int - 48;
    ChainOpens(a, o, b, c);
    ChainFactsHold(a, o, b, c);
    ChainScanStart(d, a', b');
    ChainScanSecondOperator(d, a', b', o as int);
    ChainScanLastNumber(d, a', b', c');
    ChainScanEnd(d, a', b', c', o as int, inner, outer);
  }

  /** As a statement, "a o b o c ;" returns the same value, pushes nothing
      and leaves the stream at the end of the buffer. */
  lemma ChainStatement(a: byte, o: byte, b: byte, c: byte, inner: int, outer: int)
    requires ChainShape(a, o, b, c)
    requires IntArith(o as int, b as int - 48, c as int - 48) == Computed(Int(inner))
    requires IntArith(o as int, a as int - 48, inner) == Computed(Int(outer))
    ensures var d := ChainBytes(a, o, b, c);
      && Lookahead(ChainStream(d, 0))
      && ChainStream(d, 0).pos < |d|
      && ParserNextSpec(ChainStream(d, 0), true) == Halted(TS(d, 12, Blank, Blank), [], Returned(Int(outer)))
  {
    var d := ChainBytes(a, o, b, c);
    ChainGroupsRight(a, o, b, c, inner, outer);
    EndToken(d);
    assert AdvanceSpec(ChainStream(d, 5)) == Advanced(TS(d, 12, Blank, Blank), []);
  }

  /** "1 - 2 - 3 ;" is 1 - (2 - 3) = 2. */
  lemma SubtractionGroupsRight()
    ensures ParserNextSpec(ChainStream(ChainBytes(49, 45, 50, 51), 0), true).out == Returned(Int(2))
  {
    assert IntArith('-' as int, 2, 3) == Computed(Int(-1));
    assert IntArith('-' as int, 1, -1) == Computed(Int(2));
    ChainStatement(49, 45, 50, 51, -1, 2);
  }

  /** "8 / 2 / 2 ;" is 8 / (2 / 2) = 8. */
  lemma DivisionGroupsRight()
    ensures ParserNextSpec(ChainStream(ChainBytes(56, 47, 50, 50), 0), true).out == Returned(Int(8))
  {
    assert IntArith('/' as int, 2, 2) == Computed(Int(1));
    assert IntArith('/' as int, 8, 1) == Computed(Int(8));
    ChainStatement(56, 47, 50, 50, 1, 8);
  }
}
