/** Properties of `parser_next` for every token stream: what a statement
    must start with, when it yields a value, what is reported otherwise, and
    that a statement made of one integer literal evaluates to that integer. */
module StatementProperties {
  import opened CType
  import opened FileStream
  import opened Tokenizer
  import opened Values
  import opened Parser

  /** At EOF, or with a message already in the chain, nothing is read and
      nothing is reported. */
  lemma NothingAtEndOrAfterError(t: TS, errEmpty: bool)
    requires Lookahead(t) && (t.cur.kind == Eof || !errEmpty)
    ensures ParserNextSpec(t, errEmpty) == Halted(t, [], NoValue)
  {
  }

  /** A statement that does not start with a number is a syntax error naming
      the token's kind, and the stream does not move. */
  lemma StatementStartsWithNumber(t: TS)
    requires Lookahead(t) && t.cur.kind != Eof && t.cur.kind != Integer && t.cur.kind != Floating
    ensures ParserNextSpec(t, true) == Halted(t, [SyntaxErrorMsg(t.cur.kind)], NoValue)
  {
  }

  /** A value is returned only for a statement that starts with a number and
      whose expression yielded that value with an empty chain and stopped
      on ';'; the stream is then advanced past the ';', and only that
      advance's messages are in the chain. */
  lemma ValueOnlyAfterSemicolon(t: TS)
    requires Lookahead(t)
    ensures var h := ParserNextSpec(t, true); var r := ParseExprSpec(t);
      h.out.Returned? ==>
        && (t.cur.kind == Integer || t.cur.kind == Floating)
        && r.out == h.out && r.msgs == []
        && r.ts.cur.kind == StatementEnd
        && AdvanceSpec(r.ts).Advanced?
        && h.ts == AdvanceSpec(r.ts).ts
        && h.msgs == AdvanceMsgs([], AdvanceSpec(r.ts).readMsgs)
  {
  }

  /** An expression that yields a value but stops elsewhere than on ';' is
      reported as a missing semicolon. */
  lemma MissingSemicolonReported(t: TS)
    requires Lookahead(t) && (t.cur.kind == Integer || t.cur.kind == Floating)
    requires ParseExprSpec(t).out.Returned? && ParseExprSpec(t).msgs == []
    requires ParseExprSpec(t).ts.cur.kind != StatementEnd
    ensures ParserNextSpec(t, true) == Halted(ParseExprSpec(t).ts, [MsgExpectedSemicolon], NoValue)
  {
  }

  /** An expression that yields no value, or leaves a message, is reported
      as a syntax error at the token where it stopped, after its own
      messages. */
  lemma FailedExpressionIsSyntaxError(t: TS)
    requires Lookahead(t) && (t.cur.kind == Integer || t.cur.kind == Floating)
    requires var r := ParseExprSpec(t); r.out.NoValue? || (r.out.Returned? && r.msgs != [])
    ensures var r := ParseExprSpec(t);
      ParserNextSpec(t, true) == Halted(r.ts, r.msgs + [SyntaxErrorMsg(r.ts.cur.kind)], NoValue)
  {
  }

  // ------------------------------------------------ "n ;" evaluates to n

  /** The line "n ;": the decimal digits of `n`, a space, ';' and a
      newline (so the cursor is short of the end when `main` first tests
      it, and `parser_next` runs). */
  function LiteralBytes(n: nat): seq<byte> {
    DigitsOf(n) + [32, 59, 10]
  }

  /** The stream over "n ;" after `main`'s two advances. */
  function LiteralStream(n: nat): TS {
    var d := LiteralBytes(n);
    var k := |DigitsOf(n)|;
    TS(d, k + 2, Token(Integer, At(0), At(k)), Token(StatementEnd, At(k + 1), At(k + 2)))
  }

  /** A digit run from the start of the buffer ends at the first non-digit. */
  lemma DigitRunEnds(d: seq<byte>, k: nat)
    requires k < |d| && (forall i :: 0 <= i < k ==> IsDigit(CharAt(d, i))) && !IsDigit(CharAt(d, k))
    ensures SkipWhile(d, 0, IsDigit) == k
  {
    SkipWhileStops(d, 0, IsDigit);
  }

  /** `main` opens "n ;" onto the integer token and the ';'. */
  lemma LiteralOpens(n: nat)
    ensures Open(LiteralBytes(n)) == Advanced(LiteralStream(n), [])
  {
    var d := LiteralBytes(n);
    var k := |DigitsOf(n)|;
    forall i | 0 <= i < k
      ensures IsDigit(CharAt(d, i))
    {
      assert d[i] == DigitsOf(n)[i];
    }
    DigitRunEnds(d, k);
    assert SkipWhile(d, 0, IsSpace) == 0;
    assert ReadToken(d, 0) == Lexed(Token(Integer, At(0), At(k)), k, []);
    assert SkipWhile(d, k + 1, IsSpace) == k + 1;
    assert SkipWhile(d, k, IsSpace) == k + 1;
    assert ReadToken(d, k + 1) == Lexed(Token(StatementEnd, At(k + 1), At(k + 2)), k + 2, []);
  }

  /** The stream after the scan has read the literal: on the ';', with
      EOF ahead once the newline is skipped. */
  function AfterLiteral(n: nat): TS {
    var d := LiteralBytes(n);
    TS(d, |d|, Token(StatementEnd, At(|d| - 2), At(|d| - 1)), Blank)
  }

  /** The literal reads back as `n` (or ERANGE), and the advance past it
      reaches the ';' with nothing read after it. */
  lemma LiteralFacts(n: nat)
    ensures var t0 := LiteralStream(n);
      && IntLiteral(t0.data, t0.cur) == (if n <= INT64_MAX then Some(n) else None)
      && AdvanceSpec(t0) == Advanced(AfterLiteral(n), [])
  {
    var d := LiteralBytes(n);
    var k := |DigitsOf(n)|;
    var lit := Token(Integer, At(0), At(k));
    assert d[0..k] == DigitsOf(n);
    IntLiteralReadsDigits(d, lit, n);
    assert SkipWhile(d, k + 3, IsSpace) == k + 3;
    assert SkipWhile(d, k + 2, IsSpace) == k + 3;
  }

  /** The expression "n" evaluates to `n` and stops on the ';'. */
  lemma LiteralExpression(n: nat)
    requires n <= INT64_MAX
    ensures ParseExprSpec(LiteralStream(n)) == Halted(AfterLiteral(n), [], Returned(Int(n)))
  {
    var t0, t1 := LiteralStream(n), AfterLiteral(n);
    LiteralFacts(n);
    assert ScanStep(Scan(t0, [], [])) == Continue(Scan(t1, [], [Int(n)]));
    assert ScanExpr(Scan(t1, [], [Int(n)])) == Halted(t1, [], Returned(Int(n)));
  }

  /** The advance past the ';' reads EOF at the end of the buffer. */
  lemma LiteralEnds(n: nat)
    ensures var d := LiteralBytes(n);
      AdvanceSpec(AfterLiteral(n)) == Advanced(TS(d, |d|, Blank, Blank), [])
  {
    var d := LiteralBytes(n);
    assert SkipWhile(d, |d|, IsSpace) == |d|;
  }

  /** Both tokens of "n ;" are read, and the cursor is short of the
      newline's end. */
  lemma LiteralLookahead(n: nat)
    ensures Lookahead(LiteralStream(n)) && LiteralStream(n).pos < |LiteralBytes(n)|
  {
    LiteralOpens(n);
  }

  lemma LiteralFits(n: nat)
    requires n <= INT64_MAX && Lookahead(LiteralStream(n))
    ensures var d := LiteralBytes(n);
      ParserNextSpec(LiteralStream(n), true) == Halted(TS(d, |d|, Blank, Blank), [], Returned(Int(n)))
  {
    LiteralExpression(n);
    LiteralEnds(n);
  }

  lemma LiteralTooLarge(n: nat)
    requires n > INT64_MAX && Lookahead(LiteralStream(n))
    ensures var h := ParserNextSpec(LiteralStream(n), true);
      h.out == NoValue && h.msgs == [MsgIntRange, SyntaxErrorMsg(Integer)]
  {
    LiteralFacts(n);
    var t0 := LiteralStream(n);
    assert ScanStep(Scan(t0, [], [])) == Halt(Halted(t0, [MsgIntRange], NoValue));
  }

  /** For every natural `n`, the statement "n ;" returns the integer `n`
      when it fits in 64 bits, leaving the stream at the end of the buffer;
      a larger `n` fails with the range error of `strtol` followed by the
      syntax error. */
  lemma LiteralStatement(n: nat)
    ensures Open(LiteralBytes(n)) == Advanced(LiteralStream(n), [])
    ensures Lookahead(LiteralStream(n)) && LiteralStream(n).pos < |LiteralBytes(n)|
    ensures var d := LiteralBytes(n); var h := ParserNextSpec(LiteralStream(n), true);
      if n <= INT64_MAX then h == Halted(TS(d, |d|, Blank, Blank), [], Returned(Int(n)))
      else h.out == NoValue && h.msgs == [MsgIntRange, SyntaxErrorMsg(Integer)]
  {
    LiteralOpens(n);
    LiteralLookahead(n);
    if n <= INT64_MAX {
      LiteralFits(n);
    } else {
      LiteralTooLarge(n);
    }
  }
}
