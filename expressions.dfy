/** What an RPN text means: every well-formed expression tree, written out in
    postfix order, evaluates to the value of the tree. Parentheses around a whole
    expression are accepted and change nothing. */
module Expressions {
  import opened Values
  import opened Operators
  import opened Numbers
  import opened Tokenizer
  import opened Parentheses
  import opened Calculator

  /** An arithmetic expression: an integer, a decimal literal, or an operator
      applied to two subexpressions. */
  datatype Expr = Number(n: int) | Decimal(text: string) | Apply(op: string, left: Expr, right: Expr)

  predicate WellFormed(e: Expr) {
    match e
    case Number(_) => true
    case Decimal(t) => '.' in t && IsFloatLiteral(t)
    case Apply(op, l, r) => IsOperator(op) && WellFormed(l) && WellFormed(r)
  }

  /** The tokens of e in reverse Polish order: both operands, then the operator. */
  function Postfix(e: Expr): seq<string> {
    match e
    case Number(n) => [IntToString(n)]
    case Decimal(t) => [t]
    case Apply(op, l, r) => Postfix(l) + Postfix(r) + [op]
  }

  /** The value of e: the left operand first, then the right, then the operator;
      the first failure is the result. */
  function Compute(e: Expr, floatIsZero: FloatTerm -> bool): Result<Value>
    requires WellFormed(e)
  {
    match e
    case Number(n) => Ok(Int(n))
    case Decimal(t) => Ok(Flt(Literal(t)))
    case Apply(op, l, r) =>
      match Compute(l, floatIsZero)
      case Err(x) => Err(x)
      case Ok(a) =>
        match Compute(r, floatIsZero)
        case Err(x) => Err(x)
        case Ok(b) => ApplyOperator(op, a, b, floatIsZero)
  }

  /** A decimal literal is read back as a float holding its own text. */
  lemma {:induction false} DecimalToken(t: string)
    requires '.' in t && IsFloatLiteral(t)
    ensures !IsOperator(t) && ParseNumber(t) == Ok(Flt(Literal(t)))
    ensures WellFormedToken(t) && !IsParen(t)
  {
    var u := Unsigned(t);
    forall i | 0 <= i < |t|
      ensures !IsSpace(t[i]) && !IsParenChar(t[i])
    {
      if t[0] == '+' || t[0] == '-' {
        if i > 0 {
          assert t[i] == u[i - 1];
        }
      } else {
        assert t[i] == u[i];
      }
    }
  }

  /** Every token of a well-formed expression is one the tokenizer can emit, and none is a bracket. */
  lemma {:induction false} PostfixTokens(e: Expr)
    requires WellFormed(e)
    ensures Postfix(e) != [] && NoParens(Postfix(e))
    ensures Emittable(Postfix(e))
  {
    match e
    case Number(n) =>
      NumeralIsWord(n);
    case Decimal(t) =>
      DecimalToken(t);
    case Apply(op, l, r) =>
      PostfixTokens(l);
      PostfixTokens(r);
      OperatorIsWord(op);
      var ts := Postfix(e);
      forall k | 0 <= k < |ts|
        ensures WellFormedToken(ts[k]) && !IsParen(ts[k])
      {
        if k < |Postfix(l)| {
          assert ts[k] == Postfix(l)[k];
        } else if k < |Postfix(l)| + |Postfix(r)| {
          assert ts[k] == Postfix(r)[k - |Postfix(l)|];
        } else {
          assert ts[k] == op;
        }
      }
  }

  /** The fold over a postfix expression pushes exactly its value, or stops with its first error. */
  lemma {:induction false} FoldPostfix(stack: seq<Value>, e: Expr, rest: seq<string>, floatIsZero: FloatTerm -> bool)
    requires WellFormed(e)
    ensures Fold(stack, Postfix(e) + rest, floatIsZero) ==
              match Compute(e, floatIsZero)
              case Err(x) => Err(x)
              case Ok(v) => Fold(stack + [v], rest, floatIsZero)
    decreases e
  {
    match e
    case Number(n) =>
      NumeralNotOperator(n);
      ParseIntRoundTrip(n);
      FoldPush(stack, IntToString(n), rest, Int(n), floatIsZero);
    case Decimal(t) =>
      DecimalToken(t);
      FoldPush(stack, t, rest, Flt(Literal(t)), floatIsZero);
    case Apply(op, l, r) =>
      assert Postfix(e) + rest == Postfix(l) + (Postfix(r) + ([op] + rest));
      FoldPostfix(stack, l, Postfix(r) + ([op] + rest), floatIsZero);
      if Compute(l, floatIsZero).Ok? {
        var a := Compute(l, floatIsZero).value;
        FoldPostfix(stack + [a], r, [op] + rest, floatIsZero);
        if Compute(r, floatIsZero).Ok? {
          var b := Compute(r, floatIsZero).value;
          assert stack + [a] + [b] == stack + [a, b];
          match ApplyOperator(op, a, b, floatIsZero)
          case Ok(v) =>
            FoldApply(stack, a, b, op, rest, v, floatIsZero);
          case Err(x) =>
            FoldApplyFails(stack, a, b, op, rest, x, floatIsZero);
        }
      }
  }

  /** The throwaway-stack count of the bracket check sees a postfix expression as one value. */
  lemma {:induction false} ArityPostfix(e: Expr, rest: seq<string>, h: nat)
    requires WellFormed(e)
    ensures Arity(Postfix(e) + rest, h) == Arity(rest, h + 1)
  {
    match e
    case Number(n) =>
      NumeralNotOperator(n);
      assert (Postfix(e) + rest)[1..] == rest;
    case Decimal(t) =>
      DecimalToken(t);
      assert (Postfix(e) + rest)[1..] == rest;
    case Apply(op, l, r) =>
      assert Postfix(e) + rest == Postfix(l) + (Postfix(r) + ([op] + rest));
      ArityPostfix(l, Postfix(r) + ([op] + rest), h);
      ArityPostfix(r, [op] + rest, h + 1);
      assert ([op] + rest)[1..] == rest;
  }

  /** A well-formed expression is a complete group: brackets around it are accepted. */
  lemma {:induction false} PostfixComplete(e: Expr)
    requires WellFormed(e)
    ensures GroupComplete(Postfix(e))
  {
    ArityPostfix(e, [], 0);
    assert Postfix(e) + [] == Postfix(e);
  }

  /** RPN evaluation is correct: the token list of e evaluates to the value of e. */
  lemma {:induction false} EvalPostfix(e: Expr, floatIsZero: FloatTerm -> bool)
    requires WellFormed(e)
    ensures EvalTokens(Postfix(e), floatIsZero) == Compute(e, floatIsZero)
  {
    PostfixTokens(e);
    EvalWithoutBrackets(Postfix(e), floatIsZero);
    FoldPostfix([], e, [], floatIsZero);
    assert Postfix(e) + [] == Postfix(e);
  }

  /** The same for the text: e written out with single spaces evaluates to the value of e. */
  lemma {:induction false} EvalText(e: Expr, floatIsZero: FloatTerm -> bool)
    requires WellFormed(e)
    ensures Eval(Join(Postfix(e)), floatIsZero) == Compute(e, floatIsZero)
  {
    PostfixTokens(e);
    EvalOfJoin(Postfix(e), floatIsZero);
    EvalPostfix(e, floatIsZero);
  }

  /** Brackets around a whole expression, with bracket-free tokens before and after,
      change nothing. */
  lemma {:induction false} BracketedExpression(pre: seq<string>, e: Expr, rest: seq<string>, floatIsZero: FloatTerm -> bool)
    requires WellFormed(e) && NoParens(pre) && NoParens(rest)
    ensures EvalTokens(pre + ["("] + Postfix(e) + [")"] + rest, floatIsZero) ==
            EvalTokens(pre + Postfix(e) + rest, floatIsZero)
  {
    PostfixTokens(e);
    PostfixComplete(e);
    Bracketed(pre, Postfix(e), rest, floatIsZero);
  }

  predicate Emittable(ts: seq<string>) {
    forall k | 0 <= k < |ts| :: WellFormedToken(ts[k])
  }

  lemma {:induction false} EmittableSplit(pre: seq<string>, body: seq<string>, rest: seq<string>)
    requires Emittable(pre + body + rest)
    ensures Emittable(pre) && Emittable(body) && Emittable(rest)
  {
    var ts := pre + body + rest;
    assert forall k | 0 <= k < |pre| :: pre[k] == ts[k];
    assert forall k | 0 <= k < |body| :: body[k] == ts[|pre| + k];
    assert forall k | 0 <= k < |rest| :: rest[k] == ts[|pre| + |body| + k];
  }

  lemma {:induction false} EmittableBracketed(pre: seq<string>, body: seq<string>, rest: seq<string>)
    requires Emittable(pre) && Emittable(body) && Emittable(rest)
    ensures Emittable(pre + ["("] + body + [")"] + rest)
  {
    var ts := pre + ["("] + body + [")"] + rest;
    forall k | 0 <= k < |ts|
      ensures WellFormedToken(ts[k])
    {
      if k < |pre| {
        assert ts[k] == pre[k];
      } else if k == |pre| {
        assert ts[k] == "(";
      } else if k <= |pre| + |body| {
        assert ts[k] == body[k - |pre| - 1];
      } else if k == |pre| + |body| + 1 {
        assert ts[k] == ")";
      } else {
        assert ts[k] == rest[k - |pre| - |body| - 2];
      }
    }
  }

  /** Brackets around any complete part of an expression, written out with single
      spaces, leave its value unchanged. */
  lemma {:induction false} BracketedText(pre: seq<string>, inner: Expr, rest: seq<string>, e: Expr, floatIsZero: FloatTerm -> bool)
    requires WellFormed(inner) && WellFormed(e) && pre + Postfix(inner) + rest == Postfix(e)
    ensures Eval(Join(pre + ["("] + Postfix(inner) + [")"] + rest), floatIsZero) == Compute(e, floatIsZero)
  {
    PostfixTokens(e);
    EmittableSplit(pre, Postfix(inner), rest);
    EmittableBracketed(pre, Postfix(inner), rest);
    assert NoParens(pre) && NoParens(rest) by {
      var ps := Postfix(e);
      assert forall k | 0 <= k < |pre| :: pre[k] == ps[k];
      assert forall k | 0 <= k < |rest| :: rest[k] == ps[|pre| + |Postfix(inner)| + k];
    }
    BracketedExpression(pre, inner, rest, floatIsZero);
    EvalPostfix(e, floatIsZero);
    EvalOfJoin(pre + ["("] + Postfix(inner) + [")"] + rest, floatIsZero);
  }

  /** Two brackets around a whole expression, written out with single spaces,
      leave its value unchanged. */
  lemma {:induction false} DoubleBracketedText(e: Expr, floatIsZero: FloatTerm -> bool)
    requires WellFormed(e)
    ensures Eval(Join(["(", "("] + Postfix(e) + [")", ")"]), floatIsZero) == Compute(e, floatIsZero)
  {
    var body := Postfix(e);
    PostfixTokens(e);
    PostfixComplete(e);
    BracketTokens();
    assert Emittable(["("]) && Emittable([")"]);
    EmittableBracketed(["("], body, [")"]);
    var ts := ["(", "("] + body + [")", ")"];
    assert ["("] + ["("] + body + [")"] + [")"] == ts;
    EvalOfJoin(ts, floatIsZero);
    DoubleGroupPasses(body);
    DoubleGroupStrip(body);
    EvalWithoutBrackets(body, floatIsZero);
    EvalPostfix(e, floatIsZero);
  }

  /** Bracket-free tokens that fold to a stack other than a single value are InvalidExpression. */
  lemma {:induction false} LeftOver(ts: seq<string>, stack: seq<Value>, floatIsZero: FloatTerm -> bool)
    requires NoParens(ts) && Fold([], ts, floatIsZero) == Ok(stack) && |stack| != 1
    ensures EvalTokens(ts, floatIsZero) == Err(InvalidExpression(|stack|))
  {
    EvalWithoutBrackets(ts, floatIsZero);
  }

  lemma {:induction false} PostfixPairFlat(e1: Expr, e2: Expr)
    requires WellFormed(e1) && WellFormed(e2)
    ensures NoParens(Postfix(e1) + Postfix(e2))
  {
    PostfixTokens(e1);
    PostfixTokens(e2);
    FlatConcat([], Postfix(e1), Postfix(e2));
    assert [] + Postfix(e1) + Postfix(e2) == Postfix(e1) + Postfix(e2);
  }

  /** Two expressions side by side fold to their two values, in order. */
  lemma {:induction false} FoldTwo(e1: Expr, e2: Expr, a: Value, b: Value, floatIsZero: FloatTerm -> bool)
    requires WellFormed(e1) && WellFormed(e2)
    requires Compute(e1, floatIsZero) == Ok(a) && Compute(e2, floatIsZero) == Ok(b)
    ensures Fold([], Postfix(e1) + Postfix(e2), floatIsZero) == Ok([a, b])
  {
    FoldPostfix([], e1, Postfix(e2), floatIsZero);
    FoldPostfix([a], e2, [], floatIsZero);
    assert Postfix(e2) + [] == Postfix(e2);
    assert [] + [a] == [a] && [a] + [b] == [a, b];
  }

  /** Two complete expressions side by side leave two values: InvalidExpression(2). */
  lemma {:induction false} TwoExpressions(e1: Expr, e2: Expr, floatIsZero: FloatTerm -> bool)
    requires WellFormed(e1) && WellFormed(e2)
    requires Compute(e1, floatIsZero).Ok? && Compute(e2, floatIsZero).Ok?
    ensures EvalTokens(Postfix(e1) + Postfix(e2), floatIsZero) == Err(InvalidExpression(2))
  {
    var a, b := Compute(e1, floatIsZero).value, Compute(e2, floatIsZero).value;
    PostfixPairFlat(e1, e2);
    FoldTwo(e1, e2, a, b, floatIsZero);
    LeftOver(Postfix(e1) + Postfix(e2), [a, b], floatIsZero);
  }

  /** An operator after a complete expression finds only one value: InsufficientOperands. */
  lemma {:induction false} OperatorTooMany(e: Expr, op: string, floatIsZero: FloatTerm -> bool)
    requires WellFormed(e) && IsOperator(op)
    ensures Compute(e, floatIsZero).Ok? ==>
              EvalTokens(Postfix(e) + [op], floatIsZero) == Err(InsufficientOperands(op))
  {
    if Compute(e, floatIsZero).Ok? {
      var a := Compute(e, floatIsZero).value;
      var ts := Postfix(e) + [op];
      assert NoParens(ts) by {
        PostfixTokens(e);
        FlatConcat([], Postfix(e), [op]);
        assert [] + Postfix(e) + [op] == ts;
      }
      assert Fold([], ts, floatIsZero) == Err(InsufficientOperands(op)) by {
        FoldPostfix([], e, [op], floatIsZero);
        assert [] + [a] == [a];
        FoldShort([a], op, [], floatIsZero);
      }
      EvalWithoutBrackets(ts, floatIsZero);
    }
  }

  /** A non-empty word is a token the tokenizer can emit, and not a bracket. */
  lemma {:induction false} WordToken(t: string)
    requires t != "" && Word(t)
    ensures WellFormedToken(t) && !IsParen(t)
  {
    assert !IsParenChar(t[0]);
  }

  /** The two brackets are tokens the tokenizer can emit. */
  lemma BracketTokens()
    ensures WellFormedToken("(") && WellFormedToken(")")
  {
  }

  lemma {:induction false} EmittableAppend(a: seq<string>, b: seq<string>)
    requires Emittable(a) && Emittable(b)
    ensures Emittable(a + b)
  {
    assert forall k | |a| <= k < |a + b| :: (a + b)[k] == b[k - |a|];
  }

  /** Written out with single spaces: two complete expressions side by side are
      InvalidExpression(2). */
  lemma {:induction false} TextTwoExpressions(e1: Expr, e2: Expr, floatIsZero: FloatTerm -> bool)
    requires WellFormed(e1) && WellFormed(e2)
    requires Compute(e1, floatIsZero).Ok? && Compute(e2, floatIsZero).Ok?
    ensures Eval(Join(Postfix(e1) + Postfix(e2)), floatIsZero) == Err(InvalidExpression(2))
  {
    PostfixTokens(e1);
    PostfixTokens(e2);
    EmittableAppend(Postfix(e1), Postfix(e2));
    TwoExpressions(e1, e2, floatIsZero);
    EvalOfJoin(Postfix(e1) + Postfix(e2), floatIsZero);
  }

  /** Written out with single spaces: an operator after a complete expression is
      InsufficientOperands. */
  lemma {:induction false} TextOperatorTooMany(e: Expr, op: string, floatIsZero: FloatTerm -> bool)
    requires WellFormed(e) && IsOperator(op)
    ensures Compute(e, floatIsZero).Ok? ==>
              Eval(Join(Postfix(e) + [op]), floatIsZero) == Err(InsufficientOperands(op))
  {
    PostfixTokens(e);
    OperatorIsWord(op);
    EmittableAppend(Postfix(e), [op]);
    OperatorTooMany(e, op, floatIsZero);
    EvalOfJoin(Postfix(e) + [op], floatIsZero);
  }

  /** Written out with single spaces: a first word that is neither an operator, a
      bracket nor a number is InvalidToken, whatever follows it without brackets. */
  lemma {:induction false} TextInvalidFirst(t: string, rest: seq<string>, floatIsZero: FloatTerm -> bool)
    requires t != "" && Word(t) && !IsOperator(t) && ParseNumber(t).Err?
    requires Emittable(rest) && NoParens(rest)
    ensures Eval(Join([t] + rest), floatIsZero) == Err(InvalidToken(t))
  {
    EmittableAppend([t], rest);
    var ts := [t] + rest;
    assert NoParens(ts) by {
      assert forall k | 1 <= k < |ts| :: ts[k] == rest[k - 1];
    }
    EvalOfJoin(ts, floatIsZero);
    EvalWithoutBrackets(ts, floatIsZero);
    FoldRejects([], t, rest, floatIsZero);
  }

  /** Written out with single spaces: a bracket error of the token list is the
      evaluation's error. */
  lemma {:induction false} TextBracketError(ts: seq<string>, err: Error, floatIsZero: FloatTerm -> bool)
    requires Emittable(ts) && ts != [] && Validation(ts) == Fail(err)
    ensures Eval(Join(ts), floatIsZero) == Err(err)
  {
    EvalOfJoin(ts, floatIsZero);
  }
}
