/** The lexical scanner: classifies the input by its first character after
    whitespace and moves the cursor past the token it reads. Each reader has
    a specification function over the buffer and the position (`Read...`)
    and a method that runs it on a cursor (`...Into`, `TokenRead`). */
module Tokenizer {
  import opened CType
  import opened FileStream
  import opened ErrorChain

  datatype TokenKind =
    | Identifier | String | Integer | Floating | Operator | If
    | ParenOpen | ParenClose | StatementEnd | Eof | Unknown

  /** The name `token_type_str` gives each kind. */
  function KindName(k: TokenKind): (s: string)
    ensures 0 < |s| < 20
  {
    match k
    case Identifier => "TOKEN_IDENTIFIER"
    case String => "TOKEN_STRING"
    case Integer => "TOKEN_INTEGER"
    case Floating => "TOKEN_FLOATING"
    case Operator => "TOKEN_OPERATOR"
    case If => "TOKEN_IF"
    case ParenOpen => "TOKEN_PAREN_OPEN"
    case ParenClose => "TOKEN_PAREN_CLOSE"
    case StatementEnd => "TOKEN_STATEMENT_END"
    case Eof => "TOKEN_EOF"
    case Unknown => "TOKEN_UNKNOWN"
  }

  /** The names tell the kinds apart: a message naming a kind names one. */
  lemma KindNamesDistinct(a: TokenKind, b: TokenKind)
    ensures KindName(a) == KindName(b) ==> a == b
  {
  }

  /** A token: its kind and the span [start, end) it occupies. */
  datatype Token = Token(kind: TokenKind, start: Loc, end: Loc)

  /** What a reader leaves behind: the token, the new cursor position and the
      messages it pushed; or the process exit on the `while` keyword. */
  datatype Lexed = Lexed(tok: Token, pos: nat, msgs: seq<string>) | LexExit

  /** The `is_operator` table; a negative `char` (outside the table) is
      taken to read as false. */
  predicate IsOperatorChar(c: int) {
    c == '+' as int || c == '-' as int || c == '*' as int || c == '/' as int
    || c == '=' as int || c == '%' as int || c == '&' as int || c == '|' as int
    || c == '<' as int || c == '>' as int || c == '!' as int || c == '^' as int
    || c == '(' as int || c == ')' as int || c == '~' as int
  }

  // ---------------------------------------------------------------- numbers

  /** `token_read_number`: an optional '-', a maximal digit run and, if a '.'
      follows, the '.' and the digits after it. */
  function ReadNumber(data: seq<byte>, p: nat): Lexed {
    var q := if CharAt(data, p) == '-' as int then p + 1 else p;
    var r := SkipWhile(data, q, IsDigit);
    if CharAt(data, r) == '.' as int then
      var e := SkipWhile(data, r + 1, IsDigit);
      Lexed(Token(Floating, LocAt(data, p), LocAt(data, e)), e, [])
    else
      Lexed(Token(Integer, LocAt(data, p), LocAt(data, r)), r, [])
  }

  /** A number read from a digit is a maximal digit run; it is FLOATING
      exactly when a '.' follows the run, and then the token also takes the
      '.' and the (possibly empty) digit run after it. */
  lemma NumberIsMaximalDigitRun(data: seq<byte>, p: nat)
    requires IsDigit(CharAt(data, p))
    ensures var l := ReadNumber(data, p); var r := SkipWhile(data, p, IsDigit);
      && l.Lexed? && l.msgs == [] && l.tok.start == At(p)
      && p < r <= |data| && r <= l.pos
      && (forall k :: p <= k < r ==> IsDigit(CharAt(data, k)))
      && (l.tok.kind == Floating <==> CharAt(data, r) == '.' as int)
      && (l.tok.kind == Integer ==> l.pos == r && !IsDigit(CharAt(data, r)))
      && (l.tok.kind == Floating ==>
            l.pos == SkipWhile(data, r + 1, IsDigit) && !IsDigit(CharAt(data, l.pos))
            && forall k :: r < k < l.pos ==> IsDigit(CharAt(data, k)))
      && l.tok.end == LocAt(data, l.pos)
  {
    var r := SkipWhile(data, p, IsDigit);
    SkipWhileStops(data, p, IsDigit);
    SkipWhileStops(data, r + 1, IsDigit);
  }

  method ReadNumberInto(m: Mfile) returns (t: Token)
    modifies m`pos
    ensures ReadNumber(m.data, old(m.pos)) == Lexed(t, m.pos, [])
  {
    var start := m.Cur();
    if m.CurChar() == '-' as int {
      var _ := m.IncPos();
    }
    m.Skip(IsDigit);
    var kind: TokenKind;
    if m.CurChar() == '.' as int {
      kind := Floating;
      var _ := m.IncPos();
      m.Skip(IsDigit);
    } else {
      kind := Integer;
    }
    t := Token(kind, start, m.Cur());
  }

  // -------------------------------------------------------------- operators

  /** `token_read_operator` as written: it gets characters while they are
      operators, then steps back one. When the run reaches the end of the
      buffer the last get was an operator, so the step back un-reads it. */
  function ReadOperatorAsWritten(data: seq<byte>, p: nat): Lexed
    requires p < |data| && IsOperatorChar(CharAt(data, p))
  {
    var q := SkipWhile(data, p, IsOperatorChar);
    SkipWhileStops(data, p, IsOperatorChar);
    var e := if q < |data| then q else q - 1;
    Lexed(Token(Operator, LocAt(data, p), LocAt(data, e)), e, [])
  }

  /** A lone operator at the end of the buffer: the as-written reader
      returns an empty span and leaves the cursor where it was, so the next
      read yields the same token again and the scan never gets past it. */
  lemma OperatorAtEndMakesNoProgress()
    ensures ReadOperatorAsWritten([43], 0) == Lexed(Token(Operator, At(0), At(0)), 0, [])
  {
    assert SkipWhile([43], 1, IsOperatorChar) == 1;
  }

  /** `token_read_operator` as intended: the maximal operator run, the
      cursor left on the first character after it. */
  function ReadOperator(data: seq<byte>, p: nat): Lexed {
    var q := SkipWhile(data, p, IsOperatorChar);
    Lexed(Token(Operator, LocAt(data, p), LocAt(data, q)), q, [])
  }

  /** The corrected reader consumes the whole run, at the end of the buffer
      too, and stops on a non-operator character. */
  lemma OperatorIsMaximalRun(data: seq<byte>, p: nat)
    requires IsOperatorChar(CharAt(data, p))
    ensures var l := ReadOperator(data, p);
      && p < l.pos <= |data|
      && (forall k :: p <= k < l.pos ==> IsOperatorChar(CharAt(data, k)))
      && !IsOperatorChar(CharAt(data, l.pos))
      && l.tok == Token(Operator, At(p), LocAt(data, l.pos))
  {
    SkipWhileStops(data, p, IsOperatorChar);
  }

  /** Both readers agree unless the run reaches the end of the buffer. */
  lemma OperatorReadersAgreeInsideBuffer(data: seq<byte>, p: nat)
    requires p < |data| && IsOperatorChar(CharAt(data, p))
    requires SkipWhile(data, p, IsOperatorChar) < |data|
    ensures ReadOperatorAsWritten(data, p) == ReadOperator(data, p)
  {
  }

  /** Gets while the character is an operator; steps back only when the
      loop stopped on a non-operator (the as-written code steps back always). */
  method ReadOperatorInto(m: Mfile) returns (t: Token)
    modifies m`pos
    ensures ReadOperator(m.data, old(m.pos)) == Lexed(t, m.pos, [])
  {
    var start := m.Cur();
    var stoppedOnOther := false;
    while !m.Eof() && !stoppedOnOther
      invariant old(m.pos) <= m.pos
      invariant !stoppedOnOther ==> SkipWhile(m.data, m.pos, IsOperatorChar) == SkipWhile(m.data, old(m.pos), IsOperatorChar)
      invariant stoppedOnOther ==> 0 < m.pos && SkipWhile(m.data, old(m.pos), IsOperatorChar) == m.pos - 1
      decreases Remaining(m.data, m.pos), !stoppedOnOther
    {
      var c := m.Get();
      stoppedOnOther := !IsOperatorChar(c);
    }
    if stoppedOnOther {
      var _ := m.DecrPos();
    }
    t := Token(Operator, start, m.Cur());
  }

  // ---------------------------------------------------------------- strings

  /** Where the string loop stops: the first '"' not escaped by the
      character before it, or the end of the buffer. */
  function StringEnd(data: seq<byte>, q: nat, escaped: bool): nat
    decreases Remaining(data, q)
  {
    if q >= |data| then q
    else if CharAt(data, q) != '"' as int || escaped then
      StringEnd(data, q + 1, CharAt(data, q) == '\\' as int)
    else q
  }

  const MsgExpectedQuote: string := "expected '\"'"

  /** `token_read_string`: from the opening '"' to just past the closing one;
      at the end of the buffer it reports the missing quote and leaves the
      token's end unset. */
  function ReadString(data: seq<byte>, p: nat): Lexed {
    var q := StringEnd(data, p + 1, false);
    if CharAt(data, q) != '"' as int then
      Lexed(Token(String, LocAt(data, p), Null), q, [MsgExpectedQuote])
    else
      Lexed(Token(String, LocAt(data, p), LocAt(data, q + 1)), q + 1, [])
  }

  /** The string loop ends on an unescaped '"' inside the buffer or at its
      end, never earlier. */
  lemma {:induction false} StringEndStops(data: seq<byte>, q: nat, escaped: bool)
    ensures q <= StringEnd(data, q, escaped)
    ensures StringEnd(data, q, escaped) < |data| ==> CharAt(data, StringEnd(data, q, escaped)) == '"' as int
    ensures q <= |data| ==> StringEnd(data, q, escaped) <= |data|
    decreases Remaining(data, q)
  {
    if q < |data| && (CharAt(data, q) != '"' as int || escaped) {
      StringEndStops(data, q + 1, CharAt(data, q) == '\\' as int);
    }
  }

  /** A string fails exactly when the buffer ends before a closing quote; on
      success its span ends just past the closing '"'. */
  lemma StringClosesOrFails(data: seq<byte>, p: nat)
    requires CharAt(data, p) == '"' as int
    ensures var l := ReadString(data, p); var q := StringEnd(data, p + 1, false);
      && l.Lexed? && l.tok.kind == String && l.tok.start == At(p)
      && (l.msgs != [] <==> q >= |data|)
      && (l.msgs == [] ==> p < q < |data| && CharAt(data, q) == '"' as int
                           && l.pos == q + 1 && l.tok.end == LocAt(data, q + 1))
  {
    StringEndStops(data, p + 1, false);
  }

  /** A backslash stops the '"' after it from closing the string. */
  lemma EscapedQuoteDoesNotClose(data: seq<byte>, q: nat)
    requires q + 1 < |data|
    requires CharAt(data, q) == '\\' as int && CharAt(data, q + 1) == '"' as int
    ensures StringEnd(data, q, false) != q + 1
  {
    assert StringEnd(data, q, false) == StringEnd(data, q + 1, true);
    StringEndStops(data, q + 2, false);
    assert StringEnd(data, q + 1, true) == StringEnd(data, q + 2, false);
  }

  method ReadStringInto(err: Error, m: Mfile) returns (t: Token)
    modifies m`pos, err
    ensures var l := ReadString(m.data, old(m.pos));
      l.Lexed? && t == l.tok && m.pos == l.pos && err.msgs == old(err.msgs) + l.msgs
  {
    var start := m.Cur();
    var _ := m.IncPos();
    var escaped := false;
    while !m.Eof() && (m.CurChar() != '"' as int || escaped)
      invariant StringEnd(m.data, m.pos, escaped) == StringEnd(m.data, old(m.pos) + 1, false)
      invariant err.msgs == old(err.msgs)
      decreases Remaining(m.data, m.pos)
    {
      var c := m.Get();
      escaped := c == '\\' as int;
    }
    if m.CurChar() != '"' as int {
      assert Truncate(MsgExpectedQuote) == MsgExpectedQuote;
      Push(err, MsgExpectedQuote);
      return Token(String, start, Null);
    }
    var _ := m.IncPos();
    t := Token(String, start, m.Cur());
  }

  // ---------------------------------------------------- keywords, identifiers

  /** The keyword texts "if" and "while" as bytes. */
  const KeywordIf: seq<byte> := [105, 102]
  const KeywordWhile: seq<byte> := [119, 104, 105, 108, 101]

  /** `IS_KEYWORD`: the first min(|kw|, len) bytes of the word match `kw`. */
  predicate KeywordPrefix(data: seq<byte>, p: nat, len: nat, kw: seq<byte>)
    requires p + len <= |data|
  {
    var n := if |kw| < len then |kw| else len;
    data[p..p + n] == kw[..n]
  }

  /** `token_read_keyword_or_identifier`: a maximal alphanumeric run; IF when
      it starts like "if", an exit when it starts like "while". */
  function ReadWord(data: seq<byte>, p: nat): Lexed
    requires IsAlpha(CharAt(data, p))
  {
    var e := SkipWhile(data, p, IsAlnum);
    SkipWhileStops(data, p, IsAlnum);
    if KeywordPrefix(data, p, e - p, KeywordIf) then
      Lexed(Token(If, LocAt(data, p), LocAt(data, e)), e, [])
    else if KeywordPrefix(data, p, e - p, KeywordWhile) then LexExit
    else Lexed(Token(Identifier, LocAt(data, p), LocAt(data, e)), e, [])
  }

  method ReadWordInto(m: Mfile) returns (t: Token, exited: bool)
    requires IsAlpha(m.CurChar())
    modifies m`pos
    ensures exited <==> ReadWord(m.data, old(m.pos)).LexExit?
    ensures !exited ==> ReadWord(m.data, old(m.pos)) == Lexed(t, m.pos, [])
  {
    var p := m.pos;
    var start := m.Cur();
    m.Skip(IsAlnum);
    var end := m.Cur();
    SkipWhileStops(m.data, p, IsAlnum);
    var len := m.pos - p;
    t := Token(Identifier, start, end);
    exited := false;
    if KeywordPrefix(m.data, p, len, KeywordIf) {
      t := t.(kind := If);
    } else if KeywordPrefix(m.data, p, len, KeywordWhile) {
      exited := true;
    }
  }

  // ------------------------------------------------------------ token_read

  function HexDigit(d: nat): char
    requires d < 16
  {
    if d < 10 then ('0' as int + d) as char else ('a' as int + d - 10) as char
  }

  /** The message for a byte no reader accepts, with the byte as `%02x`
      prints the `int`: sign-extended, so a negative character prints as a
      32-bit value. */
  function UnexpectedCharMsg(c: int): (msg: string)
    requires -128 <= c < 128
    ensures |msg| < MSG_SIZE
  {
    var low := if c < 0 then c + 256 else c;
    var digits := [HexDigit(low / 16), HexDigit(low % 16)];
    "unexpected character: (0x" + (if c < 0 then "ffffff" else "") + digits + ")"
  }

  /** A one-character token (';', '(' or ')') at `p`. */
  function ReadSingle(data: seq<byte>, p: nat, k: TokenKind): Lexed {
    Lexed(Token(k, LocAt(data, p), LocAt(data, p + 1)), p + 1, [])
  }

  /** `token_read`: skip whitespace, then dispatch on the character there. */
  function ReadToken(data: seq<byte>, pos: nat): Lexed {
    var p := SkipWhile(data, pos, IsSpace);
    var c := CharAt(data, p);
    if IsAlpha(c) then ReadWord(data, p)
    else if c == '"' as int then ReadString(data, p)
    else if c == ';' as int then ReadSingle(data, p, StatementEnd)
    else if c == '(' as int then ReadSingle(data, p, ParenOpen)
    else if c == ')' as int then ReadSingle(data, p, ParenClose)
    else if IsDigit(c) then ReadNumber(data, p)
    else if IsOperatorChar(c) then ReadOperator(data, p)
    else if c == EOF then Lexed(Token(Eof, Null, Null), p, [])
    else Lexed(Token(Unknown, Null, Null), p, [UnexpectedCharMsg(c)])
  }

  method TokenRead(err: Error, m: Mfile) returns (t: Token, exited: bool)
    modifies m`pos, err
    ensures exited <==> ReadToken(m.data, old(m.pos)).LexExit?
    ensures !exited ==> var l := ReadToken(m.data, old(m.pos));
      t == l.tok && m.pos == l.pos && err.msgs == old(err.msgs) + l.msgs
  {
    exited := false;
    m.Skip(IsSpace);
    var c := m.CurChar();
    if IsAlpha(c) {
      t, exited := ReadWordInto(m);
    } else if c == '"' as int {
      t := ReadStringInto(err, m);
    } else if c == ';' as int || c == '(' as int || c == ')' as int {
      var kind := if c == ';' as int then StatementEnd else if c == '(' as int then ParenOpen else ParenClose;
      var start := m.Cur();
      var _ := m.IncPos();
      t := Token(kind, start, m.Cur());
    } else if IsDigit(c) {
      t := ReadNumberInto(m);
    } else if IsOperatorChar(c) {
      t := ReadOperatorInto(m);
    } else if c == EOF {
      t := Token(Eof, Null, Null);
    } else {
      t := Token(Unknown, Null, Null);
      Push(err, UnexpectedCharMsg(c));
    }
  }

  // -------------------------------------------------- properties of reads

  /** Every read starts after the whitespace in front of the cursor. A read
      that finds EOF there yields an EOF token, pushes nothing and leaves the
      cursor on the EOF character; any other token read without error moves
      the cursor strictly forward, towards the end of the buffer. */
  lemma ReadTokenProgress(data: seq<byte>, pos: nat)
    ensures var l := ReadToken(data, pos); var p := SkipWhile(data, pos, IsSpace);
      l.Lexed? ==>
        && p <= l.pos
        && (l.tok.kind == Eof <==> CharAt(data, p) == EOF)
        && (l.tok.kind == Eof ==> l.msgs == [] && l.pos == p && CharAt(data, l.pos) == EOF)
        && (l.tok.kind != Eof && l.msgs == [] ==> Remaining(data, l.pos) < Remaining(data, pos))
  {
    var p := SkipWhile(data, pos, IsSpace);
    SkipWhileStops(data, pos, IsSpace);
    var c := CharAt(data, p);
    if IsAlpha(c) {
      SkipWhileStops(data, p, IsAlnum);
    } else if c == '"' as int {
      StringClosesOrFails(data, p);
    } else if IsDigit(c) {
      NumberIsMaximalDigitRun(data, p);
    } else if IsOperatorChar(c) {
      OperatorIsMaximalRun(data, p);
    }
  }

  /** On the EOF character a read is the EOF token, with no error and no
      move, however often it is repeated. */
  lemma EofReadIsStable(data: seq<byte>, pos: nat)
    requires CharAt(data, pos) == EOF
    ensures ReadToken(data, pos) == Lexed(Token(Eof, Null, Null), pos, [])
  {
  }

  /** ';', '(' and ')' are one-character tokens, a '-' starts an operator
      (never a number), and any byte that no reader accepts is an error. */
  lemma ReadTokenDispatch(data: seq<byte>, pos: nat)
    ensures var l := ReadToken(data, pos); var p := SkipWhile(data, pos, IsSpace); var c := CharAt(data, p);
      && (c == ';' as int ==> l == Lexed(Token(StatementEnd, At(p), LocAt(data, p + 1)), p + 1, []))
      && (c == '(' as int ==> l == Lexed(Token(ParenOpen, At(p), LocAt(data, p + 1)), p + 1, []))
      && (c == ')' as int ==> l == Lexed(Token(ParenClose, At(p), LocAt(data, p + 1)), p + 1, []))
      && (c == '-' as int ==> l.Lexed? && l.tok.kind == Operator && l.msgs == [])
      && (IsDigit(c) ==> l.Lexed? && (l.tok.kind == Integer || l.tok.kind == Floating))
      && (c != EOF && !IsAlnum(c) && !IsOperatorChar(c) && c != '"' as int && c != ';' as int ==>
            l.Lexed? && l.tok.kind == Unknown && |l.msgs| == 1 && l.pos == p)
  {
  }

  /** `IS_KEYWORD` on a word `w` compares min(|kw|, |w|) bytes: it holds
      exactly when `w` is a prefix of `kw` or `kw` is a prefix of `w`. */
  lemma KeywordPrefixMeansPrefix(data: seq<byte>, p: nat, len: nat, kw: seq<byte>)
    requires p + len <= |data|
    ensures var w := data[p..p + len];
      KeywordPrefix(data, p, len, kw) <==> (w <= kw || kw <= w)
  {
    var w := data[p..p + len];
    if |kw| < len {
      assert w[..|kw|] == data[p..p + |kw|];
    } else {
      if kw <= w {
        assert |kw| == len && kw[..len] == kw;
      }
    }
  }

  /** `token_read_keyword_or_identifier` for any word `w` in the buffer: the
      token is the maximal alphanumeric run; it is IF exactly when `w` is a
      prefix of "if" or starts with "if"; otherwise the process exits
      exactly when `w` is a prefix of "while" or starts with "while", and
      any other word is an identifier. */
  lemma WordRule(data: seq<byte>, p: nat)
    requires IsAlpha(CharAt(data, p))
    ensures var e := SkipWhile(data, p, IsAlnum); var l := ReadWord(data, p);
      && p < e <= |data|
      && (forall k :: p <= k < e ==> IsAlnum(CharAt(data, k)))
      && !IsAlnum(CharAt(data, e))
      && var w := data[p..e];
         var isIf := w <= KeywordIf || KeywordIf <= w;
         && (l.LexExit? <==> !isIf && (w <= KeywordWhile || KeywordWhile <= w))
         && (l.Lexed? ==> l == Lexed(Token(if isIf then If else Identifier, At(p), LocAt(data, e)), e, []))
  {
    var e := SkipWhile(data, p, IsAlnum);
    SkipWhileStops(data, p, IsAlnum);
    KeywordPrefixMeansPrefix(data, p, e - p, KeywordIf);
    KeywordPrefixMeansPrefix(data, p, e - p, KeywordWhile);
  }

  /** A word is IF when its first min(len, 2) bytes match "if": "i", "if" and
      "iffy" all are; "ix" is an identifier; any prefix of "while" exits.
      Each word here is followed by a space. */
  lemma IfMatchesByPrefix()
    ensures ReadWord([105, 32], 0).tok.kind == If
    ensures ReadWord([105, 102, 32], 0).tok.kind == If
    ensures ReadWord([105, 102, 102, 121, 32], 0).tok.kind == If
    ensures ReadWord([105, 120, 32], 0).tok.kind == Identifier
    ensures ReadWord([119, 104, 32], 0) == LexExit
  {
    assert SkipWhile([105, 32], 1, IsAlnum) == 1;
    assert SkipWhile([105, 102, 32], 2, IsAlnum) == 2;
    assert SkipWhile([105, 102, 102, 121, 32], 4, IsAlnum) == 4;
    assert SkipWhile([105, 120, 32], 2, IsAlnum) == 2;
    assert SkipWhile([119, 104, 32], 2, IsAlnum) == 2;
  }

  // ------------------------------------------- token_read as written

  /** `token_read` with the operator reader as written: the same dispatch
      as `ReadToken`, with `ReadOperatorAsWritten` for an operator. */
  function ReadTokenAsWritten(data: seq<byte>, pos: nat): Lexed {
    var p := SkipWhile(data, pos, IsSpace);
    var c := CharAt(data, p);
    if !IsAlpha(c) && c != '"' as int && c != ';' as int && c != '(' as int && c != ')' as int
       && !IsDigit(c) && IsOperatorChar(c)
    then ReadOperatorAsWritten(data, p)
    else ReadToken(data, pos)
  }

  /** The read as written and the corrected read differ only on an
      operator run that reaches the end of the buffer. */
  lemma TokenReadersAgreeUnlessOperatorEndsBuffer(data: seq<byte>, pos: nat)
    ensures var p := SkipWhile(data, pos, IsSpace);
      ReadTokenAsWritten(data, pos) != ReadToken(data, pos) ==>
        IsOperatorChar(CharAt(data, p)) && SkipWhile(data, p, IsOperatorChar) == |data|
  {
    var p := SkipWhile(data, pos, IsSpace);
    var c := CharAt(data, p);
    if !IsAlpha(c) && c != '"' as int && c != ';' as int && c != '(' as int && c != ')' as int
       && !IsDigit(c) && IsOperatorChar(c) && SkipWhile(data, p, IsOperatorChar) != |data| {
      SkipWhileStops(data, p, IsOperatorChar);
      OperatorReadersAgreeInsideBuffer(data, p);
    }
  }

  /** An operator in the last byte is read as written into an empty token
      that leaves the cursor on it: every later read returns the same token
      again, so the stream never gets past it. */
  lemma FinalOperatorIsReadForever(data: seq<byte>)
    requires |data| > 0 && IsOperatorChar(CharAt(data, |data| - 1))
    requires CharAt(data, |data| - 1) != '(' as int && CharAt(data, |data| - 1) != ')' as int
    ensures var p := |data| - 1;
      ReadTokenAsWritten(data, p) == Lexed(Token(Operator, At(p), At(p)), p, [])
  {
    var p := |data| - 1;
    assert SkipWhile(data, p, IsSpace) == p;
    assert SkipWhile(data, p + 1, IsOperatorChar) == p + 1;
  }
}
