/** Properties of the reductions `parse_expr` performs on its two stacks:
    what ')' pops, the strictly-lower rule for an arriving operator, the
    wrapped rank of '(' and what the drain and the final shape test admit. */
module ReductionProperties {
  import opened CType
  import opened FileStream
  import opened Tokenizer
  import opened Values
  import opened Parser

  /** A reduction that yields stacks popped an operator token and two values
      and pushed one back; nothing deeper in either stack changes. */
  lemma ReducedPopsOperator(data: seq<byte>, ops: seq<Token>, vals: seq<Value>)
    requires |ops| > 0 && ReduceOnce(data, ops, vals).Reduced?
    ensures var r := ReduceOnce(data, ops, vals);
      && ops[|ops| - 1].kind == Operator && |vals| >= 2
      && r.ops == ops[..|ops| - 1]
      && r.vals[..|vals| - 2] == vals[..|vals| - 2]
  {
    BinaryOpNeedsOperator(data, vals[|vals| - 2], vals[|vals| - 1], ops[|ops| - 1]);
  }

  /** ')' that goes on pops the operators above the nearest '(' (all of them
      operator tokens, each one reduction and one value fewer), then the '('
      itself; everything below it is kept. */
  lemma {:induction false} CloseParenPopsToMarker(data: seq<byte>, ops: seq<Token>, vals: seq<Value>)
    requires CloseParen(data, ops, vals).Reduced?
    ensures var r := CloseParen(data, ops, vals);
      && |r.ops| < |ops|
      && r.ops == ops[..|r.ops|]
      && ops[|r.ops|].kind == ParenOpen
      && (forall j :: |r.ops| < j < |ops| ==> ops[j].kind == Operator)
      && |r.vals| == |vals| - (|ops| - 1 - |r.ops|)
    decreases |ops|
  {
    if ops[|ops| - 1].kind != ParenOpen {
      var o := ReduceOnce(data, ops, vals);
      ReducedPopsOperator(data, ops, vals);
      CloseParenPopsToMarker(data, o.ops, o.vals);
      var r := CloseParen(data, ops, vals);
      assert r == CloseParen(data, o.ops, o.vals);
      assert o.ops[..|r.ops|] == ops[..|r.ops|];
    }
  }

  /** With no '(' on the operator stack, ')' never goes on: the report of
      mismatched parentheses is never reached, because the loop first reads
      the top of the emptied stack. */
  lemma {:induction false} MismatchedParenNeverReported(data: seq<byte>, ops: seq<Token>, vals: seq<Value>)
    requires forall j :: 0 <= j < |ops| ==> ops[j].kind != ParenOpen
    ensures !CloseParen(data, ops, vals).Reduced?
  {
    if CloseParen(data, ops, vals).Reduced? {
      CloseParenPopsToMarker(data, ops, vals);
    }
  }

  /** An arriving operator's reductions pop operator tokens only, one value
      each, and keep what lies below. */
  lemma {:induction false} ReduceLowerPopsOperators(data: seq<byte>, newOp: Token, ops: seq<Token>, vals: seq<Value>)
    requires ReduceLower(data, newOp, ops, vals).Reduced?
    ensures var r := ReduceLower(data, newOp, ops, vals);
      && 0 < |r.ops| <= |ops|
      && r.ops == ops[..|r.ops|]
      && (forall j :: |r.ops| <= j < |ops| ==> ops[j].kind == Operator)
      && |r.vals| == |vals| - (|ops| - |r.ops|)
    decreases |ops|
  {
    if Rank(data, newOp) < Rank(data, ops[|ops| - 1]) {
      var o := ReduceOnce(data, ops, vals);
      ReducedPopsOperator(data, ops, vals);
      ReduceLowerPopsOperators(data, newOp, o.ops, o.vals);
      var r := ReduceLower(data, newOp, o.ops, o.vals);
      assert r == ReduceLower(data, newOp, ops, vals);
      assert o.ops[..|r.ops|] == ops[..|r.ops|];
      forall j | |r.ops| <= j < |ops| - 1
        ensures ops[j].kind == Operator
      {
        assert ops[j] == o.ops[j];
      }
    }
  }

  /** An arriving operator reduces exactly the operators on top whose rank
      is strictly above its own and stops at the first whose rank is not:
      an operator of equal rank stays on the stack. */
  lemma {:induction false} ReduceLowerIsStrict(data: seq<byte>, newOp: Token, ops: seq<Token>, vals: seq<Value>)
    requires ReduceLower(data, newOp, ops, vals).Reduced?
    ensures var r := ReduceLower(data, newOp, ops, vals);
      && 0 < |r.ops| <= |ops|
      && r.ops == ops[..|r.ops|]
      && !(Rank(data, newOp) < Rank(data, r.ops[|r.ops| - 1]))
      && (forall j :: |r.ops| <= j < |ops| ==> Rank(data, newOp) < Rank(data, ops[j]))
    decreases |ops|
  {
    if Rank(data, newOp) < Rank(data, ops[|ops| - 1]) {
      var o := ReduceOnce(data, ops, vals);
      assert o.ops == ops[..|ops| - 1];
      ReduceLowerIsStrict(data, newOp, o.ops, o.vals);
      var r := ReduceLower(data, newOp, o.ops, o.vals);
      assert r == ReduceLower(data, newOp, ops, vals);
      assert o.ops[..|r.ops|] == ops[..|r.ops|];
      forall j | |r.ops| <= j < |ops| - 1
        ensures Rank(data, newOp) < Rank(data, ops[j])
      {
        assert ops[j] == o.ops[j];
      }
    }
  }

  /** An arriving operator whose rank is below that of every operator on the
      stack reduces them all and then reads the top of the emptied stack:
      "2 * 3 + 1 ;" is undefined, since '+' ranks below '*'. */
  lemma {:induction false} LowestRankEmptiesStack(data: seq<byte>, newOp: Token, ops: seq<Token>, vals: seq<Value>)
    requires forall j :: 0 <= j < |ops| ==> Rank(data, newOp) < Rank(data, ops[j])
    ensures !ReduceLower(data, newOp, ops, vals).Reduced?
  {
    if ReduceLower(data, newOp, ops, vals).Reduced? {
      ReduceLowerIsStrict(data, newOp, ops, vals);
    }
  }

  /** The operator stack holds operator tokens and '(' tokens that start
      with the '(' character. */
  predicate WellFormedOps(data: seq<byte>, ops: seq<Token>) {
    forall j :: 0 <= j < |ops| ==>
      ops[j].kind == Operator || (ops[j].kind == ParenOpen && FirstChar(data, ops[j]) == '(' as int)
  }

  /** Because the rank of '(' wraps to -128, below that of any operator, an
      arriving operator never tries to apply a '(': its reductions stop there
      and never fail, they can only be undefined. */
  lemma {:induction false} OpenParenStopsReduction(data: seq<byte>, newOp: Token, ops: seq<Token>, vals: seq<Value>)
    requires WellFormedOps(data, ops)
    requires FirstChar(data, newOp) != '(' as int && FirstChar(data, newOp) != ')' as int
    ensures !ReduceLower(data, newOp, ops, vals).ReduceFailed?
    ensures |ops| > 0 && ops[|ops| - 1].kind == ParenOpen ==> ReduceLower(data, newOp, ops, vals) == Reduced(ops, vals)
    decreases |ops|
  {
    PrecedenceTable(FirstChar(data, newOp));
    if |ops| > 0 && ops[|ops| - 1].kind == Operator && Rank(data, newOp) < Rank(data, ops[|ops| - 1]) {
      BinaryOpNeedsOperator(data, if |vals| >= 2 then vals[|vals| - 2] else Int(0),
                            if |vals| >= 1 then vals[|vals| - 1] else Int(0), ops[|ops| - 1]);
      var o := ReduceOnce(data, ops, vals);
      if o.Reduced? {
        assert o.ops == ops[..|ops| - 1];
        OpenParenStopsReduction(data, newOp, o.ops, o.vals);
      }
    }
  }

  /** A drain that leaves stacks, started with at least one value, applied
      every operator: all of them were operator tokens, the operator stack
      is empty and one value per operator is gone. */
  lemma {:induction false} DrainAppliesEveryOperator(data: seq<byte>, ops: seq<Token>, vals: seq<Value>)
    requires |vals| > 0 && Drain(data, ops, vals).Reduced?
    ensures var r := Drain(data, ops, vals);
      && r.ops == []
      && |r.vals| == |vals| - |ops| >= 1
      && (forall j :: 0 <= j < |ops| ==> ops[j].kind == Operator)
    decreases |ops|
  {
    if |ops| > 0 {
      var o := ReduceOnce(data, ops, vals);
      ReducedPopsOperator(data, ops, vals);
      DrainAppliesEveryOperator(data, o.ops, o.vals);
    }
  }

  /** A '(' never closed makes the drain apply it as an operator, which fails
      (or is undefined first): the statement yields no value. */
  lemma {:induction false} UnclosedParenYieldsNothing(data: seq<byte>, ops: seq<Token>, vals: seq<Value>, k: nat)
    requires k < |ops| && ops[k].kind == ParenOpen && |vals| > 0
    ensures !Drain(data, ops, vals).Reduced?
  {
    if Drain(data, ops, vals).Reduced? {
      DrainAppliesEveryOperator(data, ops, vals);
    }
  }

  /** The shape test at the end: "bad expression" is reported exactly when
      the scan ends with no value and some operator; with values, every
      operator is applied and the top value is returned, so a statement of
      two numbers and no operator returns the second. */
  lemma FinishShape(s: Scan)
    ensures Finish(s).out.NoValue? && Finish(s).msgs == [MsgBadExpression] <==> s.vals == [] && s.ops != []
    ensures s.vals != [] && s.ops == [] ==> Finish(s) == Halted(s.ts, [], Returned(s.vals[|s.vals| - 1]))
    ensures Finish(s).out.Returned? ==>
      |s.vals| > |s.ops| && forall j :: 0 <= j < |s.ops| ==> s.ops[j].kind == Operator
  {
    var data := s.ts.data;
    if s.vals != [] && Drain(data, s.ops, s.vals).Reduced? {
      DrainAppliesEveryOperator(data, s.ops, s.vals);
    }
    if s.vals != [] && Drain(data, s.ops, s.vals).ReduceFailed? {
      DrainFailureMessage(data, s.ops, s.vals);
      var l, r, op :| Drain(data, s.ops, s.vals).msgs == [BinaryOpTypeMsg(l, r, op)];
      assert BinaryOpTypeMsg(l, r, op)[0] != MsgBadExpression[0];
    }
  }

  /** A failed reduction reports the one message of `binary_op`. */
  lemma {:induction false} DrainFailureMessage(data: seq<byte>, ops: seq<Token>, vals: seq<Value>)
    requires Drain(data, ops, vals).ReduceFailed?
    ensures exists l, r, op :: Drain(data, ops, vals).msgs == [BinaryOpTypeMsg(l, r, op)]
    decreases |ops|
  {
    var o := ReduceOnce(data, ops, vals);
    BinaryOpNeedsOperator(data, vals[|vals| - 2], vals[|vals| - 1], ops[|ops| - 1]);
    if o.Reduced? {
      DrainFailureMessage(data, o.ops, o.vals);
    }
  }

  /** The right fold `v0 o1 (v1 o2 (... (v(n-1) on vn)))` of `binary_op`,
      the innermost application first; the first failure or undefined
      application is the result. */
  function FoldRight(data: seq<byte>, ops: seq<Token>, vals: seq<Value>): OpResult
    requires |vals| == |ops| + 1
    decreases |ops|
  {
    if ops == [] then Computed(vals[0])
    else
      match FoldRight(data, ops[1..], vals[1..])
      case Computed(r) => BinaryOp(data, vals[0], r, ops[0])
      case other => other
  }

  /** The fold applies the last operator to the last two values first. */
  lemma {:induction false} FoldRightLast(data: seq<byte>, ops: seq<Token>, vals: seq<Value>)
    requires |vals| == |ops| + 1 && |ops| > 0
    ensures var n := |ops|; var last := BinaryOp(data, vals[n - 1], vals[n], ops[n - 1]);
      FoldRight(data, ops, vals) == if last.Computed? then FoldRight(data, ops[..n - 1], vals[..n - 1] + [last.v]) else last
    decreases |ops|
  {
    var n := |ops|;
    var last := BinaryOp(data, vals[n - 1], vals[n], ops[n - 1]);
    if n > 1 {
      FoldRightLast(data, ops[1..], vals[1..]);
      assert ops[1..][..n - 2] == ops[..n - 1][1..];
      if last.Computed? {
        assert vals[1..][..n - 2] + [last.v] == (vals[..n - 1] + [last.v])[1..];
      }
    }
  }

  /** The drain's outcome for a fold's result, over the values `below`. */
  function Folded(below: seq<Value>, f: OpResult): Reduced {
    match f
    case Computed(v) => Reduced([], below + [v])
    case OpFailed(ms) => ReduceFailed(ms)
    case OpUndefined => ReduceUndefined
  }

  /** With one value more than operators on top of the value stack, the
      drain computes the right fold of those values: operators of any rank
      left by the scan are applied right to left, and the values below are
      untouched. */
  lemma {:induction false} DrainIsRightFold(data: seq<byte>, below: seq<Value>, ops: seq<Token>, top: seq<Value>)
    requires |top| == |ops| + 1
    ensures Drain(data, ops, below + top) == Folded(below, FoldRight(data, ops, top))
    decreases |ops|
  {
    var n := |ops|;
    if n > 0 {
      var vals := below + top;
      assert vals[|vals| - 2] == top[n - 1] && vals[|vals| - 1] == top[n];
      var last := BinaryOp(data, top[n - 1], top[n], ops[n - 1]);
      FoldRightLast(data, ops, top);
      if last.Computed? {
        var top' := top[..n - 1] + [last.v];
        assert vals[..|vals| - 2] + [last.v] == below + top';
        assert ReduceOnce(data, ops, vals) == Reduced(ops[..n - 1], below + top');
        DrainIsRightFold(data, below, ops[..n - 1], top');
      } else {
        assert ReduceOnce(data, ops, vals) == Folded(below, last);
      }
    } else {
      assert top == [top[0]];
    }
  }
}
