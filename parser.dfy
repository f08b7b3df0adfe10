/** The statement evaluator: a token stream with one token of lookahead,
    and the two-stack precedence reducer that evaluates an expression as it
    reads it. The specification functions follow the loop of `parse_expr`
    one token at a time (`ScanStep`), with the three reduction loops as
    functions of their own; the methods run the same algorithm on a cursor,
    an error chain and two fixed stacks, and are proved equal to them.
    Undefined behaviour of the source (reading the top of an empty stack,
    int64 overflow) is the outcome `Undefined`; a process exit is `Exited`. */
module Parser {
  import opened CType
  import opened FileStream
  import opened ErrorChain
  import opened Stack
  import opened Tokenizer
  import opened Values
  import opened Strtod

  // ======================================================== token stream

  /** The parser's view: the buffer, the cursor, the current token and the
      lookahead token. */
  datatype TS = TS(data: seq<byte>, pos: nat, cur: Token, next: Token)

  /** The lookahead was read at the cursor: when it is EOF, so is the
      character there. Every advance keeps this. */
  predicate Lookahead(t: TS) {
    t.next.kind == Eof ==> CharAt(t.data, t.pos) == EOF
  }

  /** Bytes left, counted twice, plus one for each of the two tokens that is
      not EOF: every advance that reads without error lowers it. */
  function Measure(t: TS): nat {
    2 * Remaining(t.data, t.pos) + (if t.cur.kind == Eof then 0 else 1)
    + (if t.next.kind == Eof then 0 else 1)
  }

  datatype Exit = StackCapacityExceeded | IdentifiersNotImplemented | WhileNotImplemented

  const MsgAdvanceFailed: string := "tokenstream_advance failed"

  /** What an advance leaves: the new stream and the messages the read
      pushed (without the advance's own), or the exit on `while`. */
  datatype Advanced = Advanced(ts: TS, readMsgs: seq<string>) | AdvanceExit

  /** `tokenstream_advance`: the lookahead becomes current, and the next
      token is read after the whitespace. */
  function AdvanceSpec(t: TS): Advanced {
    var p := SkipWhile(t.data, t.pos, IsSpace);
    match ReadToken(t.data, p)
    case LexExit => AdvanceExit
    case Lexed(tok, q, ms) => Advanced(TS(t.data, q, t.next, tok), ms)
  }

  /** The chain after an advance: the read's messages and, when the chain
      is then non-empty, the advance's own. */
  function AdvanceMsgs(before: seq<string>, readMsgs: seq<string>): seq<string> {
    if before + readMsgs == [] then [] else before + readMsgs + [MsgAdvanceFailed]
  }

  /** An advance from a stream whose current token is not EOF keeps the
      lookahead invariant and lowers the measure, unless the read fails. */
  lemma AdvanceDecreases(t: TS)
    requires Lookahead(t) && t.cur.kind != Eof
    ensures AdvanceSpec(t).Advanced? && AdvanceSpec(t).readMsgs == [] ==>
      var u := AdvanceSpec(t).ts;
      u.data == t.data && Lookahead(u) && Measure(u) < Measure(t)
  {
    var p := SkipWhile(t.data, t.pos, IsSpace);
    SkipWhileStops(t.data, t.pos, IsSpace);
    ReadTokenProgress(t.data, p);
    SkipWhileIdempotent(t.data, p, IsSpace);
    if t.next.kind == Eof {
      EofReadIsStable(t.data, t.pos);
    }
  }

  /** A NULL token slot: an EOF token without a span. */
  const Blank: Token := Token(Eof, Null, Null)

  /** The stream `main` sets up: both token slots start as NULL (modelled
      by an EOF token without a span) and two advances fill them. */
  function Open(data: seq<byte>): Advanced {
    match AdvanceSpec(TS(data, 0, Blank, Blank))
    case AdvanceExit => AdvanceExit
    case Advanced(t, ms) =>
      match AdvanceSpec(t)
      case AdvanceExit => AdvanceExit
      case Advanced(u, ms2) => Advanced(u, ms + ms2)
  }

  // ========================================================== reductions

  /** The outcome of one of the reduction loops: the two stacks after it,
      the messages of a failed `binary_op`, or undefined behaviour. */
  datatype Reduced = Reduced(ops: seq<Token>, vals: seq<Value>) | ReduceFailed(msgs: seq<string>) | ReduceUndefined

  /** One reduction: pop the right and the left operand and the operator,
      apply it, push the result. Popping a missing operand is undefined. */
  function ReduceOnce(data: seq<byte>, ops: seq<Token>, vals: seq<Value>): (r: Reduced)
    requires |ops| > 0
    ensures r.Reduced? ==> |r.ops| == |ops| - 1 && |r.vals| == |vals| - 1
    ensures r.Reduced? ==>
      && |vals| >= 2 && r.ops == ops[..|ops| - 1] && r.vals[..|vals| - 2] == vals[..|vals| - 2]
      && BinaryOp(data, vals[|vals| - 2], vals[|vals| - 1], ops[|ops| - 1]) == Computed(r.vals[|vals| - 2])
  {
    if |vals| < 2 then ReduceUndefined
    else
      match BinaryOp(data, vals[|vals| - 2], vals[|vals| - 1], ops[|ops| - 1])
      case Computed(v) => Reduced(ops[..|ops| - 1], vals[..|vals| - 2] + [v])
      case OpFailed(ms) => ReduceFailed(ms)
      case OpUndefined => ReduceUndefined
  }

  /** On ')': reduce until '(' is on top, then pop it. Reaching the bottom of
      the operator stack reads the top of an empty stack. */
  function CloseParen(data: seq<byte>, ops: seq<Token>, vals: seq<Value>): Reduced
    decreases |ops|
  {
    if |ops| == 0 then ReduceUndefined
    else if ops[|ops| - 1].kind == ParenOpen then Reduced(ops[..|ops| - 1], vals)
    else
      match ReduceOnce(data, ops, vals)
      case Reduced(o, v) => CloseParen(data, o, v)
      case other => other
  }

  /** The rank of a token on the operator stack or arriving. */
  function Rank(data: seq<byte>, t: Token): int {
    Precedence(FirstChar(data, t))
  }

  /** On an operator, with a non-empty operator stack: reduce while the new
      operator's rank is strictly below the top's. Emptiness is tested only
      before the first test, so a reduction that empties the stack makes the
      next test read the top of an empty stack. */
  function ReduceLower(data: seq<byte>, newOp: Token, ops: seq<Token>, vals: seq<Value>): Reduced
    decreases |ops|
  {
    if |ops| == 0 then ReduceUndefined
    else if !(Rank(data, newOp) < Rank(data, ops[|ops| - 1])) then Reduced(ops, vals)
    else
      match ReduceOnce(data, ops, vals)
      case Reduced(o, v) => ReduceLower(data, newOp, o, v)
      case other => other
  }

  /** After the scan: reduce while both stacks are non-empty. */
  function Drain(data: seq<byte>, ops: seq<Token>, vals: seq<Value>): Reduced
    decreases |ops|
  {
    if |vals| == 0 || |ops| == 0 then Reduced(ops, vals)
    else
      match ReduceOnce(data, ops, vals)
      case Reduced(o, v) => Drain(data, o, v)
      case other => other
  }

  // ======================================================= the scan loop

  /** What `parse_expr` and `parser_next` give back: a value, NULL, or no
      return at all (undefined behaviour, a process exit). */
  datatype Outcome = Returned(v: Value) | NoValue | Undefined | Exited(why: Exit)

  /** A finished run: the stream and the messages pushed, and the outcome. */
  datatype Halted = Halted(ts: TS, msgs: seq<string>, out: Outcome)

  /** The loop state of `parse_expr`. */
  datatype Scan = Scan(ts: TS, ops: seq<Token>, vals: seq<Value>)

  /** One pass of the loop: go on with a new state, leave for the drain
      (`goto end`), or stop. */
  datatype Step = Continue(next: Scan) | Stop | Halt(h: Halted)

  const MsgCouldNotAdvance: string := "(parse_floating) couldn't advance parser"
  const MsgBadExpression: string := "(parse_expr) bad expression"

  function ExitAt(t: TS, msgs: seq<string>, why: Exit): Step {
    Halt(Halted(t, msgs, Exited(why)))
  }

  /** The message of a literal parser called on the wrong kind of token. */
  function UnexpectedTypeMsg(fn: string, k: TokenKind): string {
    "(" + fn + ") unexpected token type: " + KindName(k)
  }

  /** What `parse_int` and `parse_floating` leave: the stream, the whole
      error chain and the value (None for NULL), or the exit on `while`. */
  datatype Parsed = Parsed(ts: TS, msgs: seq<string>, v: Option<Value>) | ParseExit

  /** `parse_int`, entered with the chain `before`: convert the digits of
      the current token, then advance past it. */
  function ParseIntSpec(t: TS, before: seq<string>): (r: Parsed)
    ensures r.ParseExit? ==> AdvanceSpec(t).AdvanceExit?
    ensures r.Parsed? ==> before <= r.msgs
    ensures r.Parsed? && r.v.Some? ==>
      t.cur.kind == Integer && r.v.value.Int? && 0 <= r.v.value.i <= INT64_MAX
    ensures r.Parsed? && r.msgs == before ==>
      r.v.Some? && AdvanceSpec(t) == Advanced(r.ts, [])
    ensures r.Parsed? && r.v.Some? ==> IntLiteral(t.data, t.cur) == Some(r.v.value.i)
    ensures t.cur.kind == Integer && IntLiteral(t.data, t.cur).None? ==>
      r == Parsed(t, before + [MsgIntRange], None)
  {
    if t.cur.kind != Integer then Parsed(t, before + [UnexpectedTypeMsg("parse_int", t.cur.kind)], None)
    else
      match IntLiteral(t.data, t.cur)
      case None => Parsed(t, before + [MsgIntRange], None)
      case Some(n) =>
        match AdvanceSpec(t)
        case AdvanceExit => ParseExit
        case Advanced(u, ms) => Parsed(u, AdvanceMsgs(before, ms), Some(Int(n)))
  }

  /** `parse_floating`, entered with the chain `before`: fail if `strtod`
      reports a range error, else keep the literal's text as its value,
      advance, and fail if the chain is then non-empty. */
  function ParseFloatingSpec(t: TS, before: seq<string>): (r: Parsed)
    ensures r.ParseExit? ==> AdvanceSpec(t).AdvanceExit?
    ensures r.Parsed? ==> (r.v.Some? <==> r.msgs == [])
    ensures r.Parsed? && r.msgs != [] ==> before <= r.msgs
    ensures r.Parsed? && r.v.Some? ==>
      t.cur.kind == Floating && before == [] && !RangeError(t.data, t.cur)
      && r.v.value == Float(Literal(SpanText(t.data, t.cur)))
      && AdvanceSpec(t) == Advanced(r.ts, [])
    ensures t.cur.kind == Floating && RangeError(t.data, t.cur) ==>
      r == Parsed(t, before + [MsgFloatRange], None)
  {
    if t.cur.kind != Floating then Parsed(t, before + [UnexpectedTypeMsg("parse_floating", t.cur.kind)], None)
    else if RangeError(t.data, t.cur) then Parsed(t, before + [MsgFloatRange], None)
    else
      match AdvanceSpec(t)
      case AdvanceExit => ParseExit
      case Advanced(u, ms) =>
        var after := AdvanceMsgs(before, ms);
        if after != [] then Parsed(u, after + [MsgCouldNotAdvance], None)
        else Parsed(u, [], Some(Float(Literal(SpanText(t.data, t.cur)))))
  }

  /** Push what a literal parser returned: a full stack exits, a non-empty
      chain makes the statement fail. */
  function PushParsed(s: Scan, p: Parsed): Step
    requires p.Parsed? && p.msgs == [] ==> p.v.Some?
  {
    match p
    case ParseExit => ExitAt(s.ts, [], WhileNotImplemented)
    case Parsed(u, ms, v) =>
      if |s.vals| >= STACK_MAX then ExitAt(u, ms, StackCapacityExceeded)
      else if ms != [] then Halt(Halted(u, ms, NoValue))
      else Continue(Scan(u, s.ops, s.vals + [v.value]))
  }

  /** Advance, then go on with the given stacks (or fail or exit). */
  function AdvanceThen(t: TS, ops: seq<Token>, vals: seq<Value>): Step {
    match AdvanceSpec(t)
    case AdvanceExit => ExitAt(t, [], WhileNotImplemented)
    case Advanced(u, ms) =>
      if ms != [] then Halt(Halted(u, AdvanceMsgs([], ms), NoValue))
      else Continue(Scan(u, ops, vals))
  }

  function ScanStep(s: Scan): (r: Step)
    requires Lookahead(s.ts)
    ensures r.Continue? ==>
      r.next.ts.data == s.ts.data && Lookahead(r.next.ts) && Measure(r.next.ts) < Measure(s.ts)
    ensures r.Halt? ==> !r.h.out.Returned?
  {
    var t := s.ts;
    if t.cur.kind in {Integer, Floating, ParenOpen, ParenClose, Operator} then
      AdvanceDecreases(t);
      match t.cur.kind
      case Integer => PushParsed(s, ParseIntSpec(t, []))
      case Floating => PushParsed(s, ParseFloatingSpec(t, []))
      case ParenOpen =>
        if |s.ops| >= STACK_MAX then ExitAt(t, [], StackCapacityExceeded)
        else AdvanceThen(t, s.ops + [t.cur], s.vals)
      case ParenClose =>
        (match CloseParen(t.data, s.ops, s.vals)
         case ReduceUndefined => Halt(Halted(t, [], Undefined))
         case ReduceFailed(ms) => Halt(Halted(t, ms, NoValue))
         case Reduced(o, v) => AdvanceThen(t, o, v))
      case Operator =>
        var red := if |s.ops| == 0 then Reduced(s.ops, s.vals) else ReduceLower(t.data, t.cur, s.ops, s.vals);
        (match red
         case ReduceUndefined => Halt(Halted(t, [], Undefined))
         case ReduceFailed(ms) => Halt(Halted(t, ms, NoValue))
         case Reduced(o, v) =>
           match AdvanceSpec(t)
           case AdvanceExit => ExitAt(t, [], WhileNotImplemented)
           case Advanced(u, ms) =>
             if ms != [] then Halt(Halted(u, AdvanceMsgs([], ms), NoValue))
             else if |o| >= STACK_MAX then ExitAt(u, [], StackCapacityExceeded)
             else Continue(Scan(u, o + [t.cur], v)))
    else if t.cur.kind == Identifier then ExitAt(t, [], IdentifiersNotImplemented)
    else Stop
  }

  /** `end:` — drain, check the shape, return the top of the value stack.
      The shape check fails only when the value stack does not hold exactly
      one value AND the operator stack is not empty. */
  function Finish(s: Scan): Halted {
    match Drain(s.ts.data, s.ops, s.vals)
    case ReduceUndefined => Halted(s.ts, [], Undefined)
    case ReduceFailed(ms) => Halted(s.ts, ms, NoValue)
    case Reduced(o, v) =>
      if |v| != 1 && |o| != 0 then Halted(s.ts, [MsgBadExpression], NoValue)
      else if |v| == 0 then Halted(s.ts, [], Undefined)
      else Halted(s.ts, [], Returned(v[|v| - 1]))
  }

  /** The loop of `parse_expr` from a given state to its end. */
  function ScanExpr(s: Scan): Halted
    requires Lookahead(s.ts)
    decreases Measure(s.ts)
  {
    match ScanStep(s)
    case Continue(n) => ScanExpr(n)
    case Stop => Finish(s)
    case Halt(h) => h
  }

  /** `parse_expr`: the loop from two empty stacks. */
  function ParseExprSpec(t: TS): Halted
    requires Lookahead(t)
  {
    ScanExpr(Scan(t, [], []))
  }

  function SyntaxErrorMsg(k: TokenKind): string {
    "(parser_next) syntax error: unexpected token " + KindName(k)
  }

  const MsgExpectedSemicolon: string := "(parser_next) expected semicolon"

  /** `parser_next`: nothing at EOF or with a non-empty chain; otherwise a
      statement must start with a number, hold an expression and end on
      ';', past which the stream is advanced. */
  function ParserNextSpec(t: TS, errEmpty: bool): Halted
    requires Lookahead(t)
  {
    if t.cur.kind == Eof || !errEmpty then Halted(t, [], NoValue)
    else if t.cur.kind == Integer || t.cur.kind == Floating then
      var r := ParseExprSpec(t);
      match r.out
      case Undefined => r
      case Exited(_) => r
      case NoValue => Halted(r.ts, r.msgs + [SyntaxErrorMsg(r.ts.cur.kind)], NoValue)
      case Returned(v) =>
        if r.msgs != [] then Halted(r.ts, r.msgs + [SyntaxErrorMsg(r.ts.cur.kind)], NoValue)
        else if r.ts.cur.kind != StatementEnd then Halted(r.ts, [MsgExpectedSemicolon], NoValue)
        else
          match AdvanceSpec(r.ts)
          case AdvanceExit => Halted(r.ts, [], Exited(WhileNotImplemented))
          case Advanced(u, ms) => Halted(u, AdvanceMsgs([], ms), Returned(v))
    else Halted(t, [SyntaxErrorMsg(t.cur.kind)], NoValue)
  }

  // ========================================================= the methods

  /** `TokenStream`: the two token slots and the cursor they are read from. */
  class TokenStream {
    var cur: Token
    var next: Token
    const m: Mfile

    constructor (m: Mfile, cur: Token, next: Token)
      ensures this.m == m && this.cur == cur && this.next == next
    {
      this.m := m;
      this.cur := cur;
      this.next := next;
    }

    ghost function State(): TS
      reads this, m
    {
      TS(m.data, m.pos, cur, next)
    }
  }

  /** Every message the parser pushes fits its buffer whole. */
  predicate Fits(ms: seq<string>) {
    forall i :: 0 <= i < |ms| ==> |ms[i]| < MSG_SIZE
  }

  method PushAll(err: Error, ms: seq<string>)
    requires Fits(ms)
    modifies err
    ensures err.msgs == old(err.msgs) + ms
  {
    var i := 0;
    while i < |ms|
      invariant 0 <= i <= |ms|
      invariant err.msgs == old(err.msgs) + ms[..i]
    {
      Push(err, ms[i]);
      assert ms[..i + 1] == ms[..i] + [ms[i]];
      i := i + 1;
    }
    assert ms[..i] == ms;
  }

  /** `tokenstream_advance`, proved against `AdvanceSpec`: returns whether
      the chain is empty afterwards. */
  method Advance(err: Error, ts: TokenStream) returns (ok: bool, exited: bool)
    modifies ts, ts.m, err
    ensures var a := AdvanceSpec(old(ts.State()));
      && (exited <==> a.AdvanceExit?)
      && (!exited ==> ts.State() == a.ts && err.msgs == AdvanceMsgs(old(err.msgs), a.readMsgs)
                      && (ok <==> err.msgs == []))
  {
    ts.cur := ts.next;
    ts.m.Skip(IsSpace);
    var t;
    t, exited := TokenRead(err, ts.m);
    if exited {
      return false, true;
    }
    ts.next := t;
    ok := Empty(err);
    if !ok {
      assert Truncate(MsgAdvanceFailed) == MsgAdvanceFailed;
      Push(err, MsgAdvanceFailed);
    }
  }

  /** `parse_int`, proved against `ParseIntSpec`. */
  method ParseInt(err: Error, ts: TokenStream) returns (v: Option<Value>, exited: bool)
    modifies ts, ts.m, err
    ensures var r := ParseIntSpec(old(ts.State()), old(err.msgs));
      && (exited <==> r.ParseExit?)
      && (!exited ==> ts.State() == r.ts && err.msgs == r.msgs && v == r.v)
  {
    exited := false;
    var t := ts.cur;
    if t.kind != Integer {
      assert Truncate(UnexpectedTypeMsg("parse_int", t.kind)) == UnexpectedTypeMsg("parse_int", t.kind);
      Push(err, UnexpectedTypeMsg("parse_int", t.kind));
      return None, false;
    }
    match IntLiteral(ts.m.data, t)
    case None =>
      assert Truncate(MsgIntRange) == MsgIntRange;
      Push(err, MsgIntRange);
      v := None;
    case Some(n) =>
      var _, ex := Advance(err, ts);
      v, exited := Some(Int(n)), ex;
  }

  /** `parse_floating`, proved against `ParseFloatingSpec`. */
  method ParseFloating(err: Error, ts: TokenStream) returns (v: Option<Value>, exited: bool)
    modifies ts, ts.m, err
    ensures var r := ParseFloatingSpec(old(ts.State()), old(err.msgs));
      && (exited <==> r.ParseExit?)
      && (!exited ==> ts.State() == r.ts && err.msgs == r.msgs && v == r.v)
  {
    exited := false;
    var t := ts.cur;
    if t.kind != Floating {
      assert Truncate(UnexpectedTypeMsg("parse_floating", t.kind)) == UnexpectedTypeMsg("parse_floating", t.kind);
      Push(err, UnexpectedTypeMsg("parse_floating", t.kind));
      return None, false;
    }
    if RangeError(ts.m.data, t) {
      assert Truncate(MsgFloatRange) == MsgFloatRange;
      Push(err, MsgFloatRange);
      return None, false;
    }
    var text := SpanText(ts.m.data, t);
    var ok;
    ok, exited := Advance(err, ts);
    if exited {
      return None, true;
    }
    if !Empty(err) {
      assert Truncate(MsgCouldNotAdvance) == MsgCouldNotAdvance;
      Push(err, MsgCouldNotAdvance);
      return None, false;
    }
    v := Some(Float(Literal(text)));
  }

  // ------------------------------------------------- the reduction loops

  /** How a reduction loop ended, the stacks themselves being its result. */
  datatype ReduceStatus = Reducing | ReduceFail | ReduceUB

  /** The stacks and the chain are what the reduction outcome `r` says. */
  ghost predicate Agrees(r: Reduced, st: ReduceStatus, err: Error, ops: FixedStack<Token>, vals: FixedStack<Value>)
    requires ops.Valid() && vals.Valid()
    reads err, ops, ops.vals, vals, vals.vals
  {
    match r
    case Reduced(o, v) => st == Reducing && ops.Contents() == o && vals.Contents() == v && err.msgs == []
    case ReduceFailed(ms) => st == ReduceFail && err.msgs == ms
    case ReduceUndefined => st == ReduceUB
  }

  lemma BinaryOpMessagesFit(data: seq<byte>, l: Value, r: Value, op: Token)
    ensures BinaryOp(data, l, r, op).OpFailed? ==> Fits(BinaryOp(data, l, r, op).msgs)
  {
  }

  /** Pop the right and the left operand and an operator, apply, push. */
  method ApplyTop(err: Error, data: seq<byte>, ops: FixedStack<Token>, vals: FixedStack<Value>) returns (st: ReduceStatus)
    requires ops.Valid() && vals.Valid() && ops.top > 0 && err.msgs == []
    modifies ops`top, vals`top, vals.vals, err
    ensures ops.Valid() && vals.Valid()
    ensures Agrees(ReduceOnce(data, old(ops.Contents()), old(vals.Contents())), st, err, ops, vals)
  {
    if vals.top < 2 {
      return ReduceUB;
    }
    var rval := vals.Pop();
    var lval := vals.Pop();
    var op := ops.Pop();
    match BinaryOp(data, lval, rval, op)
    case Computed(v) =>
      var _ := vals.Push(v);
      st := Reducing;
    case OpFailed(ms) =>
      BinaryOpMessagesFit(data, lval, rval, op);
      PushAll(err, ms);
      st := ReduceFail;
    case OpUndefined =>
      st := ReduceUB;
  }

  /** The `TOKEN_PAREN_CLOSE` loop of `parse_expr`, proved against
      `CloseParen`. */
  method CloseParenLoop(err: Error, data: seq<byte>, ops: FixedStack<Token>, vals: FixedStack<Value>) returns (st: ReduceStatus)
    requires ops.Valid() && vals.Valid() && err.msgs == []
    modifies ops`top, vals`top, vals.vals, err
    ensures ops.Valid() && vals.Valid()
    ensures Agrees(CloseParen(data, old(ops.Contents()), old(vals.Contents())), st, err, ops, vals)
  {
    while !ops.Empty() && ops.Top().kind != ParenOpen
      invariant ops.Valid() && vals.Valid() && err.msgs == []
      invariant CloseParen(data, ops.Contents(), vals.Contents()) == CloseParen(data, old(ops.Contents()), old(vals.Contents()))
      decreases ops.top
    {
      st := ApplyTop(err, data, ops, vals);
      if st != Reducing {
        return;
      }
    }
    if ops.Empty() {
      // `stack_top` of the empty operator stack
      return ReduceUB;
    }
    var _ := ops.Pop();
    st := Reducing;
  }

  /** The `TOKEN_OPERATOR` loop of `parse_expr` on a non-empty operator
      stack, proved against `ReduceLower`. */
  method ReduceLowerLoop(err: Error, data: seq<byte>, newOp: Token, ops: FixedStack<Token>, vals: FixedStack<Value>) returns (st: ReduceStatus)
    requires ops.Valid() && vals.Valid() && err.msgs == []
    modifies ops`top, vals`top, vals.vals, err
    ensures ops.Valid() && vals.Valid()
    ensures Agrees(ReduceLower(data, newOp, old(ops.Contents()), old(vals.Contents())), st, err, ops, vals)
  {
    while true
      invariant ops.Valid() && vals.Valid() && err.msgs == []
      invariant ReduceLower(data, newOp, ops.Contents(), vals.Contents()) == ReduceLower(data, newOp, old(ops.Contents()), old(vals.Contents()))
      decreases ops.top
    {
      if ops.Empty() {
        // the loop condition reads the top of the emptied stack
        return ReduceUB;
      }
      if !(Rank(data, newOp) < Rank(data, ops.Top())) {
        return Reducing;
      }
      st := ApplyTop(err, data, ops, vals);
      if st != Reducing {
        return;
      }
    }
  }

  /** The loop at `end:` of `parse_expr`, proved against `Drain`. */
  method DrainLoop(err: Error, data: seq<byte>, ops: FixedStack<Token>, vals: FixedStack<Value>) returns (st: ReduceStatus)
    requires ops.Valid() && vals.Valid() && err.msgs == []
    modifies ops`top, vals`top, vals.vals, err
    ensures ops.Valid() && vals.Valid()
    ensures Agrees(Drain(data, old(ops.Contents()), old(vals.Contents())), st, err, ops, vals)
  {
    while !vals.Empty() && !ops.Empty()
      invariant ops.Valid() && vals.Valid() && err.msgs == []
      invariant Drain(data, ops.Contents(), vals.Contents()) == Drain(data, old(ops.Contents()), old(vals.Contents()))
      decreases ops.top
    {
      st := ApplyTop(err, data, ops, vals);
      if st != Reducing {
        return;
      }
    }
    st := Reducing;
  }

  // ------------------------------------------------------ parse_expr

  /** The loop state held by the stream and the two stacks. */
  ghost function ScanOf(ts: TokenStream, ops: FixedStack<Token>, vals: FixedStack<Value>): Scan
    requires ops.Valid() && vals.Valid()
    reads ts, ts.m, ops, ops.vals, vals, vals.vals
  {
    Scan(ts.State(), ops.Contents(), vals.Contents())
  }

  /** How one pass of the loop ended. */
  datatype StepStatus = Go | End | Done(out: Outcome)

  /** The objects are what the pass `step` from `before` says. After undefined
      behaviour or an exit nothing is claimed of them. */
  ghost predicate PassAgrees(step: Step, before: Scan, status: StepStatus, err: Error, ts: TokenStream,
                             ops: FixedStack<Token>, vals: FixedStack<Value>)
    requires ops.Valid() && vals.Valid()
    reads err, ts, ts.m, ops, ops.vals, vals, vals.vals
  {
    && (status == Go ==> step.Continue? && ScanOf(ts, ops, vals) == step.next && err.msgs == [])
    && (status == End ==> step.Stop? && ScanOf(ts, ops, vals) == before && err.msgs == [])
    && (status.Done? ==>
          step.Halt? && status.out == step.h.out
          && (status.out.NoValue? ==> ts.State() == step.h.ts && err.msgs == step.h.msgs))
  }

  /** A pass on a number: parse it and push the value. */
  method PushLiteral(err: Error, ts: TokenStream, ops: FixedStack<Token>, vals: FixedStack<Value>) returns (status: StepStatus)
    requires ops.Valid() && vals.Valid() && err.msgs == [] && Lookahead(ts.State())
    requires ts.cur.kind == Integer || ts.cur.kind == Floating
    modifies ts, ts.m, err, vals`top, vals.vals
    ensures ops.Valid() && vals.Valid()
    ensures PassAgrees(ScanStep(old(ScanOf(ts, ops, vals))), old(ScanOf(ts, ops, vals)), status, err, ts, ops, vals)
  {
    var v, exited;
    if ts.cur.kind == Integer {
      v, exited := ParseInt(err, ts);
    } else {
      v, exited := ParseFloating(err, ts);
    }
    if exited {
      return Done(Exited(WhileNotImplemented));
    }
    // A NULL result is pushed too; the statement then fails before the
    // slot is read, so any value stands for it.
    var pushed := vals.Push(if v.Some? then v.value else Int(0));
    if !pushed {
      return Done(Exited(StackCapacityExceeded));
    }
    status := if Empty(err) then Go else Done(NoValue);
  }

  /** A pass on '(': push it and advance. */
  method PushOpenParen(err: Error, ts: TokenStream, ops: FixedStack<Token>, vals: FixedStack<Value>) returns (status: StepStatus)
    requires ops.Valid() && vals.Valid() && err.msgs == [] && Lookahead(ts.State())
    requires ts.cur.kind == ParenOpen
    modifies ts, ts.m, err, ops`top, ops.vals
    ensures ops.Valid() && vals.Valid()
    ensures PassAgrees(ScanStep(old(ScanOf(ts, ops, vals))), old(ScanOf(ts, ops, vals)), status, err, ts, ops, vals)
  {
    var pushed := ops.Push(ts.cur);
    if !pushed {
      return Done(Exited(StackCapacityExceeded));
    }
    var ok, exited := Advance(err, ts);
    status := if exited then Done(Exited(WhileNotImplemented)) else if ok then Go else Done(NoValue);
  }

  /** A pass on ')': reduce back to the '(' and advance. */
  method CloseParenPass(err: Error, ts: TokenStream, ops: FixedStack<Token>, vals: FixedStack<Value>) returns (status: StepStatus)
    requires ops.Valid() && vals.Valid() && err.msgs == [] && Lookahead(ts.State())
    requires ts.cur.kind == ParenClose
    modifies ts, ts.m, err, ops`top, vals`top, vals.vals
    ensures ops.Valid() && vals.Valid()
    ensures PassAgrees(ScanStep(old(ScanOf(ts, ops, vals))), old(ScanOf(ts, ops, vals)), status, err, ts, ops, vals)
  {
    var st := CloseParenLoop(err, ts.m.data, ops, vals);
    if st != Reducing {
      return if st == ReduceUB then Done(Undefined) else Done(NoValue);
    }
    var ok, exited := Advance(err, ts);
    status := if exited then Done(Exited(WhileNotImplemented)) else if ok then Go else Done(NoValue);
  }

  /** A pass on an operator: reduce the operators of higher rank, advance,
      push the operator. */
  method ShiftOperator(err: Error, ts: TokenStream, ops: FixedStack<Token>, vals: FixedStack<Value>) returns (status: StepStatus)
    requires ops.Valid() && vals.Valid() && err.msgs == [] && Lookahead(ts.State())
    requires ts.cur.kind == Operator
    modifies ts, ts.m, err, ops`top, ops.vals, vals`top, vals.vals
    ensures ops.Valid() && vals.Valid()
    ensures PassAgrees(ScanStep(old(ScanOf(ts, ops, vals))), old(ScanOf(ts, ops, vals)), status, err, ts, ops, vals)
  {
    var newOp := ts.cur;
    if !ops.Empty() {
      var st := ReduceLowerLoop(err, ts.m.data, newOp, ops, vals);
      if st != Reducing {
        return if st == ReduceUB then Done(Undefined) else Done(NoValue);
      }
    }
    var ok, exited := Advance(err, ts);
    if exited {
      return Done(Exited(WhileNotImplemented));
    }
    if !ok {
      return Done(NoValue);
    }
    var pushed := ops.Push(newOp);
    status := if pushed then Go else Done(Exited(StackCapacityExceeded));
  }

  /** One pass of the `parse_expr` loop, proved against `ScanStep`. */
  method ExprStep(err: Error, ts: TokenStream, ops: FixedStack<Token>, vals: FixedStack<Value>) returns (status: StepStatus)
    requires ops.Valid() && vals.Valid() && err.msgs == [] && Lookahead(ts.State())
    modifies ts, ts.m, err, ops`top, ops.vals, vals`top, vals.vals
    ensures ops.Valid() && vals.Valid()
    ensures PassAgrees(ScanStep(old(ScanOf(ts, ops, vals))), old(ScanOf(ts, ops, vals)), status, err, ts, ops, vals)
  {
    match ts.cur.kind
    case Integer =>
      status := PushLiteral(err, ts, ops, vals);
    case Floating =>
      status := PushLiteral(err, ts, ops, vals);
    case Identifier =>
      status := Done(Exited(IdentifiersNotImplemented));
    case ParenOpen =>
      status := PushOpenParen(err, ts, ops, vals);
    case ParenClose =>
      status := CloseParenPass(err, ts, ops, vals);
    case Operator =>
      status := ShiftOperator(err, ts, ops, vals);
    case _ =>
      status := End;
  }

  /** The code at `end:`, proved against `Finish`. */
  method EndOfExpr(err: Error, ts: TokenStream, ops: FixedStack<Token>, vals: FixedStack<Value>) returns (out: Outcome)
    requires ops.Valid() && vals.Valid() && err.msgs == []
    modifies ops`top, vals`top, vals.vals, err
    ensures var h := Finish(old(ScanOf(ts, ops, vals)));
      out == h.out && (out.Returned? || out.NoValue? ==> ts.State() == h.ts && err.msgs == h.msgs)
  {
    var st := DrainLoop(err, ts.m.data, ops, vals);
    if st != Reducing {
      return if st == ReduceUB then Undefined else NoValue;
    }
    if vals.Len() != 1 && ops.Len() != 0 {
      assert Truncate(MsgBadExpression) == MsgBadExpression;
      Push(err, MsgBadExpression);
      return NoValue;
    }
    if vals.Empty() {
      // `stack_top` of the empty value stack
      return Undefined;
    }
    out := Returned(vals.Top());
  }

  /** `parse_expr`, proved against `ParseExprSpec`. It is entered with an
      empty chain, as its one caller guarantees. */
  method ParseExpr(err: Error, ts: TokenStream) returns (out: Outcome)
    requires err.msgs == [] && Lookahead(ts.State())
    modifies ts, ts.m, err
    ensures var r := ParseExprSpec(old(ts.State()));
      out == r.out && (out.Returned? || out.NoValue? ==> ts.State() == r.ts && err.msgs == r.msgs)
  {
    var ops := new FixedStack<Token>();
    var vals := new FixedStack<Value>();
    ghost var s := ScanOf(ts, ops, vals);
    ghost var goal := ScanExpr(s);
    while true
      invariant fresh(ops) && fresh(ops.vals) && fresh(vals) && fresh(vals.vals)
      invariant ops.Valid() && vals.Valid() && err.msgs == [] && Lookahead(s.ts)
      invariant s == ScanOf(ts, ops, vals)
      invariant ScanExpr(s) == goal
      decreases Measure(s.ts)
    {
      var status := ExprStep(err, ts, ops, vals);
      match status
      case Go =>
        s := ScanStep(s).next;
      case End =>
        break;
      case Done(o) =>
        return o;
    }
    out := EndOfExpr(err, ts, ops, vals);
  }

  /** `parser_next`, proved against `ParserNextSpec`. */
  method ParserNext(err: Error, ts: TokenStream) returns (out: Outcome)
    requires Lookahead(ts.State())
    modifies ts, ts.m, err
    ensures var r := ParserNextSpec(old(ts.State()), old(err.msgs) == []);
      out == r.out
      && (out.Returned? || out.NoValue? ==> ts.State() == r.ts && err.msgs == old(err.msgs) + r.msgs)
  {
    if ts.cur.kind == Eof || !Empty(err) {
      return NoValue;
    }
    if ts.cur.kind == Integer || ts.cur.kind == Floating {
      out := ParseExpr(err, ts);
      if out.Undefined? || out.Exited? {
        return;
      }
      if !Empty(err) || out.NoValue? {
        assert Truncate(SyntaxErrorMsg(ts.cur.kind)) == SyntaxErrorMsg(ts.cur.kind);
        Push(err, SyntaxErrorMsg(ts.cur.kind));
        return NoValue;
      }
    } else {
      assert Truncate(SyntaxErrorMsg(ts.cur.kind)) == SyntaxErrorMsg(ts.cur.kind);
      Push(err, SyntaxErrorMsg(ts.cur.kind));
      return NoValue;
    }
    if ts.cur.kind != StatementEnd {
      assert Truncate(MsgExpectedSemicolon) == MsgExpectedSemicolon;
      Push(err, MsgExpectedSemicolon);
      return NoValue;
    }
    // the outcome of the final advance is not looked at
    var _, exited := Advance(err, ts);
    if exited {
      return Exited(WhileNotImplemented);
    }
  }

  // ============================================== the position report

  /** The line and column `parser_print_position` reports. */
  datatype LineCol = LineCol(line: nat, col: nat)

  const NEWLINE: byte := 10

  /** The count kept over the bytes `s`, read first to last: a newline starts
      a new line at column 0, any other byte moves one column right. */
  function Position(s: seq<byte>): LineCol
  {
    if s == [] then LineCol(0, 0)
    else
      var p := Position(s[..|s| - 1]);
      if s[|s| - 1] == NEWLINE then LineCol(p.line + 1, 0) else LineCol(p.line, p.col + 1)
  }

  /** The line is the number of newlines read. */
  lemma {:induction false} LineCountsNewlines(s: seq<byte>)
    ensures Position(s).line == multiset(s)[NEWLINE]
  {
    if s != [] {
      LineCountsNewlines(s[..|s| - 1]);
      assert s == s[..|s| - 1] + [s[|s| - 1]];
    }
  }

  /** The column is the length of the run after the last newline: the last
      `col` bytes hold no newline, and the byte before them is one. */
  lemma {:induction false} ColumnFollowsLastNewline(s: seq<byte>)
    ensures Position(s).col <= |s|
    ensures forall k :: |s| - Position(s).col <= k < |s| ==> s[k] != NEWLINE
    ensures Position(s).col < |s| ==> s[|s| - Position(s).col - 1] == NEWLINE
  {
    if s != [] {
      ColumnFollowsLastNewline(s[..|s| - 1]);
    }
  }

  /** How many bytes the report reads: up to and including the one under
      the cursor, and no further than the end of the buffer. */
  function ReportedPrefix(data: seq<byte>, pos: nat): nat {
    if pos < |data| then pos + 1 else |data|
  }

  /** `parser_print_position`: a fresh cursor over the same buffer counts
      lines and columns up to the stream's cursor. The stream is not moved. */
  method PrintPosition(ts: TokenStream) returns (p: LineCol)
    ensures p == Position(ts.m.data[..ReportedPrefix(ts.m.data, ts.m.pos)])
  {
    var m := new Mfile(ts.m.data, 0);
    var line, col := 0, 0;
    while !m.Eof() && m.pos <= ts.m.pos
      invariant m.data == ts.m.data && m.pos <= ReportedPrefix(ts.m.data, ts.m.pos)
      invariant LineCol(line, col) == Position(m.data[..m.pos])
      decreases |m.data| - m.pos
    {
      ghost var before := m.pos;
      var c := m.Get();
      assert m.data[..m.pos][..before] == m.data[..before];
      if c == NEWLINE as int {
        line := line + 1;
        col := 0;
      } else {
        col := col + 1;
      }
    }
    p := LineCol(line, col);
  }
}
