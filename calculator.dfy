/** `evaluate`: blank check, tokenize, validate brackets, drop them, fold the
    tokens left to right through a value stack, and demand one value at the end. */
module Calculator {
  import opened Values
  import opened Operators
  import opened Numbers
  import opened Tokenizer
  import opened Parentheses

  /** `not expression.strip()`. */
  predicate IsBlank(e: string) {
    forall i | 0 <= i < |e| :: IsSpace(e[i])
  }

  /** The token list without its '(' and ')' tokens, order kept. */
  function StripParens(ts: seq<string>): (r: seq<string>)
    ensures forall k | 0 <= k < |r| :: !IsParen(r[k])
    ensures |r| <= |ts|
  {
    if ts == [] then []
    else if IsParen(ts[0]) then StripParens(ts[1..])
    else [ts[0]] + StripParens(ts[1..])
  }

  /** The fold from a given stack over the remaining tokens. */
  function Fold(stack: seq<Value>, ts: seq<string>, floatIsZero: FloatTerm -> bool): Result<seq<Value>>
    decreases |ts|
  {
    if ts == [] then Ok(stack)
    else if IsOperator(ts[0]) then
      if |stack| < 2 then Err(InsufficientOperands(ts[0]))
      else
        var b, a := stack[|stack| - 1], stack[|stack| - 2];
        match ApplyOperator(ts[0], a, b, floatIsZero)
        case Err(e) => Err(e)
        case Ok(v) => Fold(stack[..|stack| - 2] + [v], ts[1..], floatIsZero)
    else
      match ParseNumber(ts[0])
      case Err(e) => Err(e)
      case Ok(v) => Fold(stack + [v], ts[1..], floatIsZero)
  }

  /** The whole evaluation, as a function of the expression. */
  function Eval(e: string, floatIsZero: FloatTerm -> bool): Result<Value> {
    if IsBlank(e) then Err(EmptyExpression) else EvalTokens(Tokens(e), floatIsZero)
  }

  /** Evaluation once the expression is tokenized: validate the brackets, drop them,
      fold, and demand exactly one value. */
  function EvalTokens(ts: seq<string>, floatIsZero: FloatTerm -> bool): Result<Value> {
    match Validation(ts)
    case Fail(err) => Err(err)
    case Pass => Finish(Fold([], StripParens(ts), floatIsZero))
  }

  /** The final check: exactly one value must be left on the stack. */
  function Finish(folded: Result<seq<Value>>): Result<Value> {
    match folded
    case Err(err) => Err(err)
    case Ok(stack) => if |stack| != 1 then Err(InvalidExpression(|stack|)) else Ok(stack[0])
  }

  /** One more value for an operand, one fewer for an operator. */
  function Weight(t: string): int {
    if IsOperator(t) then -1 else 1
  }

  /** Operands minus operators among the tokens. */
  function Height(ts: seq<string>): int {
    if ts == [] then 0 else Height(ts[..|ts| - 1]) + Weight(ts[|ts| - 1])
  }

  method Evaluate(expression: string, floatIsZero: FloatTerm -> bool) returns (r: Result<Value>)
    ensures r == Eval(expression, floatIsZero)
  {
    if IsBlank(expression) {
      return Err(EmptyExpression);
    }
    var tokens := Tokenize(expression);
    var check := ValidateParentheses(tokens);
    if check.Fail? {
      return Err(check.error);
    }
    tokens := StripParens(tokens);
    r := Reduce(tokens, floatIsZero);
  }

  /** The loop of `evaluate` over the bracket-free tokens: numbers are pushed, an
      operator pops b, then a, and pushes `a op b`; one value must remain. */
  method Reduce(tokens: seq<string>, floatIsZero: FloatTerm -> bool) returns (r: Result<Value>)
    ensures r == Finish(Fold([], tokens, floatIsZero))
  {
    assert tokens[0..] == tokens;
    var stack: seq<Value> := [];
    for i := 0 to |tokens|
      invariant Fold([], tokens, floatIsZero) == Fold(stack, tokens[i..], floatIsZero)
      invariant |stack| == Height(tokens[..i])
    {
      var token := tokens[i];
      SliceStep(tokens, i);
      if IsOperator(token) {
        if |stack| < 2 {
          FoldShort(stack, token, tokens[i + 1..], floatIsZero);
          return Err(InsufficientOperands(token));
        }
        ghost var before := stack;
        var b := stack[|stack| - 1];
        stack := stack[..|stack| - 1];
        var a := stack[|stack| - 1];
        stack := stack[..|stack| - 1];
        assert before == stack + [a, b];
        var result := ApplyOperator(token, a, b, floatIsZero);
        if result.Err? {
          FoldApplyFails(stack, a, b, token, tokens[i + 1..], result.error, floatIsZero);
          return Err(result.error);
        }
        FoldApply(stack, a, b, token, tokens[i + 1..], result.value, floatIsZero);
        stack := stack + [result.value];
      } else {
        var number := ParseNumber(token);
        if number.Err? {
          FoldRejects(stack, token, tokens[i + 1..], floatIsZero);
          return Err(InvalidToken(token));
        }
        FoldPush(stack, token, tokens[i + 1..], number.value, floatIsZero);
        stack := stack + [number.value];
      }
    }
    if |stack| != 1 {
      return Err(InvalidExpression(|stack|));
    }
    return Ok(stack[0]);
  }

  /** Token i splits the suffix from i, and adds its weight to the prefix before it. */
  lemma {:induction false} SliceStep(ts: seq<string>, i: nat)
    requires i < |ts|
    ensures ts[i..] == [ts[i]] + ts[i + 1..]
    ensures Height(ts[..i + 1]) == Height(ts[..i]) + Weight(ts[i])
  {
    assert ts[..i + 1][..i] == ts[..i];
  }

  /** One step of the fold: pop b, then a, push `a op b`; or push the parsed number. */
  lemma {:induction false} FoldUnfold(stack: seq<Value>, ts: seq<string>, floatIsZero: FloatTerm -> bool)
    requires ts != []
    ensures IsOperator(ts[0]) && |stack| < 2 ==> Fold(stack, ts, floatIsZero) == Err(InsufficientOperands(ts[0]))
    ensures IsOperator(ts[0]) && |stack| >= 2 ==>
              var r := ApplyOperator(ts[0], stack[|stack| - 2], stack[|stack| - 1], floatIsZero);
              Fold(stack, ts, floatIsZero) ==
                (if r.Err? then Err(r.error) else Fold(stack[..|stack| - 2] + [r.value], ts[1..], floatIsZero))
    ensures !IsOperator(ts[0]) ==>
              var r := ParseNumber(ts[0]);
              Fold(stack, ts, floatIsZero) ==
                (if r.Err? then Err(InvalidToken(ts[0])) else Fold(stack + [r.value], ts[1..], floatIsZero))
  {
  }

  /** A number token pushes its value. */
  lemma {:induction false} FoldPush(stack: seq<Value>, t: string, rest: seq<string>, v: Value, floatIsZero: FloatTerm -> bool)
    requires !IsOperator(t) && ParseNumber(t) == Ok(v)
    ensures Fold(stack, [t] + rest, floatIsZero) == Fold(stack + [v], rest, floatIsZero)
  {
    FoldUnfold(stack, [t] + rest, floatIsZero);
    assert ([t] + rest)[1..] == rest;
  }

  /** An operator pops b (the top), then a, and pushes `a op b`: the stack shrinks by one. */
  lemma {:induction false} FoldApply(stack: seq<Value>, a: Value, b: Value, op: string, rest: seq<string>, v: Value,
                  floatIsZero: FloatTerm -> bool)
    requires IsOperator(op) && ApplyOperator(op, a, b, floatIsZero) == Ok(v)
    ensures Fold(stack + [a, b], [op] + rest, floatIsZero) == Fold(stack + [v], rest, floatIsZero)
  {
    var st := stack + [a, b];
    FoldUnfold(st, [op] + rest, floatIsZero);
    assert ([op] + rest)[1..] == rest;
    assert st[..|st| - 2] == stack && st[|st| - 2] == a && st[|st| - 1] == b;
  }

  /** An operator that fails stops the fold with its error. */
  lemma {:induction false} FoldApplyFails(stack: seq<Value>, a: Value, b: Value, op: string, rest: seq<string>, e: Error,
                       floatIsZero: FloatTerm -> bool)
    requires IsOperator(op) && ApplyOperator(op, a, b, floatIsZero) == Err(e)
    ensures Fold(stack + [a, b], [op] + rest, floatIsZero) == Err(e)
  {
    var st := stack + [a, b];
    FoldUnfold(st, [op] + rest, floatIsZero);
    assert st[|st| - 2] == a && st[|st| - 1] == b;
  }

  /** An operator with fewer than two values below it stops the fold. */
  lemma {:induction false} FoldShort(stack: seq<Value>, op: string, rest: seq<string>, floatIsZero: FloatTerm -> bool)
    requires IsOperator(op) && |stack| < 2
    ensures Fold(stack, [op] + rest, floatIsZero) == Err(InsufficientOperands(op))
  {
    FoldUnfold(stack, [op] + rest, floatIsZero);
  }

  /** A token that is neither an operator nor a number stops the fold. */
  lemma {:induction false} FoldRejects(stack: seq<Value>, t: string, rest: seq<string>, floatIsZero: FloatTerm -> bool)
    requires !IsOperator(t) && ParseNumber(t).Err?
    ensures Fold(stack, [t] + rest, floatIsZero) == Err(InvalidToken(t))
  {
    FoldUnfold(stack, [t] + rest, floatIsZero);
  }

  lemma {:induction false} HeightCons(t: string, ts: seq<string>)
    ensures Height([t] + ts) == Weight(t) + Height(ts)
    decreases |ts|
  {
    if ts != [] {
      var init := ts[..|ts| - 1];
      assert ([t] + ts)[..|ts|] == [t] + init;
      HeightCons(t, init);
    }
  }

  /** Stack accounting: a fold that succeeds leaves the starting height plus the
      number of operands minus the number of operators. */
  lemma {:induction false} FoldHeight(stack: seq<Value>, ts: seq<string>, floatIsZero: FloatTerm -> bool)
    ensures Fold(stack, ts, floatIsZero).Ok? ==> |Fold(stack, ts, floatIsZero).value| == |stack| + Height(ts)
    decreases |ts|
  {
    if ts != [] {
      FoldUnfold(stack, ts, floatIsZero);
      HeightCons(ts[0], ts[1..]);
      assert [ts[0]] + ts[1..] == ts;
      if IsOperator(ts[0]) {
        if |stack| >= 2 {
          var r := ApplyOperator(ts[0], stack[|stack| - 2], stack[|stack| - 1], floatIsZero);
          if r.Ok? {
            FoldHeight(stack[..|stack| - 2] + [r.value], ts[1..], floatIsZero);
          }
        }
      } else {
        var r := ParseNumber(ts[0]);
        if r.Ok? {
          FoldHeight(stack + [r.value], ts[1..], floatIsZero);
        }
      }
    }
  }

  /** The errors the fold can raise. */
  predicate FoldError(e: Error) {
    e.InvalidToken? || e.InsufficientOperands? || e in {IntegerOperandsRequired, DivisionByZero, HostZeroDivision}
  }

  /** The fold follows the same arity rule as the bracket validator: if the fold runs
      short of operands, so does the rule; if the rule runs short, the fold fails,
      perhaps earlier with another error; a fold that succeeds ends at the height the
      rule predicts. */
  lemma {:induction false} FoldFollowsArity(stack: seq<Value>, ts: seq<string>, floatIsZero: FloatTerm -> bool)
    ensures Fold(stack, ts, floatIsZero).Ok? ==> Arity(ts, |stack|) == Some(|Fold(stack, ts, floatIsZero).value|)
    ensures Fold(stack, ts, floatIsZero).Err? ==> FoldError(Fold(stack, ts, floatIsZero).error)
    ensures Fold(stack, ts, floatIsZero).Err? && Fold(stack, ts, floatIsZero).error.InsufficientOperands? ==>
              Arity(ts, |stack|) == None
    ensures Arity(ts, |stack|) == None ==> Fold(stack, ts, floatIsZero).Err?
    decreases |ts|
  {
    if ts != [] {
      FoldUnfold(stack, ts, floatIsZero);
      if IsOperator(ts[0]) {
        if |stack| >= 2 {
          assert !IsParen(ts[0]);
          assert Arity(ts, |stack|) == Arity(ts[1..], |stack| - 1);
          var r := ApplyOperator(ts[0], stack[|stack| - 2], stack[|stack| - 1], floatIsZero);
          if r.Ok? {
            var s' := stack[..|stack| - 2] + [r.value];
            assert |s'| == |stack| - 1;
            FoldFollowsArity(s', ts[1..], floatIsZero);
          } else {
            assert r.error in {IntegerOperandsRequired, DivisionByZero, HostZeroDivision};
          }
        }
      } else {
        var r := ParseNumber(ts[0]);
        if r.Ok? {
          assert !IsParen(ts[0]);
          assert Arity(ts, |stack|) == Arity(ts[1..], |stack| + 1);
          FoldFollowsArity(stack + [r.value], ts[1..], floatIsZero);
        }
      }
    }
  }

  /** EmptyExpression is reported exactly for blank input: no later stage raises it. */
  lemma {:induction false} EmptyIffBlank(e: string, floatIsZero: FloatTerm -> bool)
    ensures Eval(e, floatIsZero) == Err(EmptyExpression) <==> IsBlank(e)
  {
    var ts := Tokens(e);
    ValidationCorrect(ts);
    FoldFollowsArity([], StripParens(ts), floatIsZero);
  }

  /** After the brackets are dropped, the expression must be complete by the same
      arity rule the validator applies to each bracketed group: evaluation succeeds
      only on a complete expression, fails on any other, and reports a shortage of
      operands or a leftover stack only when the expression is incomplete. */
  lemma {:induction false} EvalNeedsCompleteExpression(e: string, floatIsZero: FloatTerm -> bool)
    ensures Eval(e, floatIsZero).Ok? ==> GroupComplete(StripParens(Tokens(e)))
    ensures !IsBlank(e) && !GroupComplete(StripParens(Tokens(e))) ==> Eval(e, floatIsZero).Err?
    ensures Eval(e, floatIsZero).Err? &&
            (Eval(e, floatIsZero).error.InsufficientOperands? || Eval(e, floatIsZero).error.InvalidExpression?) ==>
              !GroupComplete(StripParens(Tokens(e)))
  {
    var ts := Tokens(e);
    ValidationCorrect(ts);
    FoldFollowsArity([], StripParens(ts), floatIsZero);
  }

  /** The tokens of "<a> <b> <c>" when a, b and c are words. */
  lemma {:induction false} TokensOfThreeWords(a: string, b: string, c: string)
    requires a != "" && Word(a) && b != "" && Word(b) && c != "" && Word(c)
    ensures Tokens(a + " " + b + " " + c) == [a, b, c]
  {
    TokensOfWord(a);
    TokensOfWord(b);
    TokensOfWord(c);
    TokensSplit(a, ' ', b);
    TokensSplit(a + " " + b, ' ', c);
  }

  lemma {:induction false} NumeralIsWord(n: int)
    ensures IntToString(n) != "" && Word(IntToString(n))
  {
  }

  lemma {:induction false} OperatorIsWord(op: string)
    requires IsOperator(op)
    ensures op != "" && Word(op)
  {
  }

  predicate NoParens(ts: seq<string>) {
    forall k | 0 <= k < |ts| :: !IsParen(ts[k])
  }

  lemma {:induction false} StripNoParens(ts: seq<string>)
    requires NoParens(ts)
    ensures StripParens(ts) == ts
  {
    if ts != [] {
      assert NoParens(ts[1..]);
      StripNoParens(ts[1..]);
    }
  }

  lemma {:induction false} ValidateFromNoParens(ts: seq<string>, i: nat)
    requires i <= |ts| && NoParens(ts)
    ensures ValidateFrom(ts, i, []) == Pass
    decreases |ts| - i
  {
    if i < |ts| {
      ValidateFromNoParens(ts, i + 1);
    }
  }

  lemma {:induction false} NumeralNotOperator(n: int)
    ensures !IsOperator(IntToString(n))
  {
    var s := IntToString(n);
    assert IsDigit(s[|s| - 1]);
  }

  /** The fold over "<x> <y> <op>": b is popped first, so x lands on the left. */
  lemma {:induction false} FoldBinary(x: int, y: int, op: string, floatIsZero: FloatTerm -> bool)
    requires IsOperator(op)
    ensures var r := ApplyOperator(op, Int(x), Int(y), floatIsZero);
            Fold([], [IntToString(x), IntToString(y), op], floatIsZero) ==
              if r.Err? then Err(r.error) else Ok([r.value])
  {
    var a, b := IntToString(x), IntToString(y);
    var ts := [a, b, op];
    ParseIntRoundTrip(x);
    ParseIntRoundTrip(y);
    NumeralNotOperator(x);
    NumeralNotOperator(y);
    FoldUnfold([], ts, floatIsZero);
    assert ts[1..] == [b, op];
    FoldUnfold([Int(x)], [b, op], floatIsZero);
    assert [b, op][1..] == [op];
    FoldUnfold([Int(x), Int(y)], [op], floatIsZero);
    var r := ApplyOperator(op, Int(x), Int(y), floatIsZero);
    if r.Ok? {
      assert [Int(x), Int(y)][..0] + [r.value] == [r.value];
    }
  }

  /** The text "<x> <y> <op>". */
  function BinaryExpression(x: int, y: int, op: string): string {
    IntToString(x) + " " + IntToString(y) + " " + op
  }

  /** "<x> <y> <op>" evaluates to `x op y`: the top of the stack is the right operand. */
  lemma {:induction false} EvalBinary(x: int, y: int, op: string, floatIsZero: FloatTerm -> bool)
    requires IsOperator(op)
    ensures Eval(BinaryExpression(x, y, op), floatIsZero) == ApplyOperator(op, Int(x), Int(y), floatIsZero)
  {
    var a, b := IntToString(x), IntToString(y);
    var e := a + " " + b + " " + op;
    NumeralIsWord(x);
    NumeralIsWord(y);
    OperatorIsWord(op);
    TokensOfThreeWords(a, b, op);
    var ts := [a, b, op];
    assert !IsBlank(e) by {
      assert e[0] == a[0];
    }
    assert NoParens(ts) by {
      assert !IsParenChar(a[0]) && !IsParenChar(b[0]) && !IsParenChar(op[0]);
    }
    ValidateFromNoParens(ts, 0);
    StripNoParens(ts);
    FoldBinary(x, y, op, floatIsZero);
  }

  lemma {:induction false} ScanOfBlank(s: string)
    requires IsBlank(s)
    ensures Scan(s) == Lexer([], "")
  {
    if s != [] {
      assert IsBlank(s[..|s| - 1]);
      ScanOfBlank(s[..|s| - 1]);
    }
  }

  lemma {:induction false} NoTextMeansBlank(s: string)
    requires RemoveSpaces(s) == ""
    ensures IsBlank(s)
  {
    if s != [] {
      NoTextMeansBlank(s[..|s| - 1]);
      assert forall i | 0 <= i < |s| - 1 :: s[..|s| - 1][i] == s[i];
    }
  }

  /** The input is blank exactly when the tokenizer emits no token, so the blank
      check is the tokenizer's own notion of an empty expression. */
  lemma {:induction false} BlankIffNoTokens(s: string)
    ensures IsBlank(s) <==> Tokens(s) == []
  {
    if IsBlank(s) {
      ScanOfBlank(s);
    }
    if Tokens(s) == [] {
      TokensPreserveText(s);
      NoTextMeansBlank(s);
    }
  }

  /** An expression with at least one token evaluates as its token list. */
  lemma {:induction false} EvalByTokens(e: string, ts: seq<string>, floatIsZero: FloatTerm -> bool)
    requires Tokens(e) == ts && ts != []
    ensures Eval(e, floatIsZero) == EvalTokens(ts, floatIsZero)
  {
    BlankIffNoTokens(e);
  }

  /** Words written with single spaces evaluate as that token list. */
  lemma {:induction false} EvalOfJoin(ws: seq<string>, floatIsZero: FloatTerm -> bool)
    requires ws != [] && forall k | 0 <= k < |ws| :: WellFormedToken(ws[k])
    ensures Eval(Join(ws), floatIsZero) == EvalTokens(ws, floatIsZero)
  {
    TokensOfJoin(ws);
    BlankIffNoTokens(Join(ws));
  }

  lemma {:induction false} ValidateFromSkip(ts: seq<string>, i: nat, j: nat, opens: seq<nat>)
    requires i <= j <= |ts| && forall k | i <= k < j :: !IsParen(ts[k])
    requires forall d | 0 <= d < |opens| :: opens[d] < i
    ensures ValidateFrom(ts, i, opens) == ValidateFrom(ts, j, opens)
    decreases j - i
  {
    if i < j {
      ValidateFromSkip(ts, i + 1, j, opens);
    }
  }

  /** The validator passes over a bracket-free stretch of tokens unchanged. */
  lemma {:induction false} SkipFlat(ts: seq<string>, i: nat, part: seq<string>, opens: seq<nat>)
    requires i + |part| <= |ts| && ts[i..i + |part|] == part && NoParens(part)
    requires forall d | 0 <= d < |opens| :: opens[d] < i
    ensures ValidateFrom(ts, i, opens) == ValidateFrom(ts, i + |part|, opens)
  {
    assert forall k | i <= k < i + |part| :: ts[k] == part[k - i];
    ValidateFromSkip(ts, i, i + |part|, opens);
  }

  /** The validator at an opening bracket whose group holds no bracket: it fails on
      an empty or incomplete group, and otherwise goes on after the closing bracket
      with the same open brackets as before. */
  lemma {:induction false} GroupAt(ts: seq<string>, i: nat, n: nat, opens: seq<nat>)
    requires i + n + 1 < |ts| && ts[i] == "(" && ts[i + n + 1] == ")"
    requires forall k | i < k <= i + n :: !IsParen(ts[k])
    requires forall d | 0 <= d < |opens| :: opens[d] < i
    ensures n == 0 ==> ValidateFrom(ts, i, opens) == Fail(EmptyParentheses)
    ensures n > 0 && !GroupComplete(ts[i + 1..i + n + 1]) ==>
              ValidateFrom(ts, i, opens) == Fail(IncompleteInParentheses(ts[i + 1..i + n + 1]))
    ensures GroupComplete(ts[i + 1..i + n + 1]) ==> ValidateFrom(ts, i, opens) == ValidateFrom(ts, i + n + 2, opens)
  {
    var opens' := opens + [i];
    assert opens'[|opens'| - 1] == i && opens'[..|opens'| - 1] == opens;
    ValidateFromSkip(ts, i + 1, i + n + 1, opens');
  }

  /** A closing bracket with no bracket before it is unmatched. */
  lemma {:induction false} StrayClose(pre: seq<string>, rest: seq<string>)
    requires NoParens(pre)
    ensures Validation(pre + [")"] + rest) == Fail(UnmatchedParentheses)
  {
    var ts := pre + [")"] + rest;
    assert ts[..|pre|] == pre;
    SkipFlat(ts, 0, pre, []);
  }

  /** An opening bracket followed only by bracket-free tokens is never closed. */
  lemma {:induction false} NeverClosed(pre: seq<string>, rest: seq<string>)
    requires NoParens(pre) && NoParens(rest)
    ensures Validation(pre + ["("] + rest) == Fail(UnmatchedParentheses)
  {
    var ts := pre + ["("] + rest;
    assert ts[..|pre|] == pre;
    SkipFlat(ts, 0, pre, []);
    assert [] + [|pre|] == [|pre|];
    assert ts[|pre| + 1..] == rest;
    SkipFlat(ts, |pre| + 1, rest, [|pre|]);
  }

  /** An opening bracket around a complete group that is itself never closed is
      unmatched. */
  lemma {:induction false} OpenAroundGroup(pre: seq<string>, body: seq<string>, rest: seq<string>)
    requires NoParens(pre) && NoParens(body) && NoParens(rest) && GroupComplete(body)
    ensures Validation(["("] + pre + ["("] + body + [")"] + rest) == Fail(UnmatchedParentheses)
  {
    var ts := ["("] + pre + ["("] + body + [")"] + rest;
    var p, n := |pre|, |body|;
    assert ts[0] == "(" && [] + [0] == [0];
    assert ts[1..p + 1] == pre;
    SkipFlat(ts, 1, pre, [0]);
    assert ts[p + 2..p + n + 2] == body;
    GroupAt(ts, p + 1, n, [0]);
    assert ts[p + n + 3..] == rest;
    SkipFlat(ts, p + n + 3, rest, [0]);
  }

  /** Inside an open bracket, an empty or incomplete inner group is reported before
      anything after it is looked at. */
  lemma {:induction false} InnerGroupFails(pre: seq<string>, body: seq<string>, rest: seq<string>)
    requires NoParens(pre) && NoParens(body) && !GroupComplete(body)
    ensures Validation(["("] + pre + ["("] + body + [")"] + rest) ==
              if body == [] then Fail(EmptyParentheses) else Fail(IncompleteInParentheses(body))
  {
    var ts := ["("] + pre + ["("] + body + [")"] + rest;
    var p, n := |pre|, |body|;
    assert ts[0] == "(" && [] + [0] == [0];
    assert ts[1..p + 1] == pre;
    SkipFlat(ts, 1, pre, [0]);
    assert ts[p + 2..p + n + 2] == body;
    GroupAt(ts, p + 1, n, [0]);
  }

  /** A closing bracket after a complete group, with no bracket between, closes
      nothing and is unmatched. */
  lemma {:induction false} CloseAfterGroup(pre: seq<string>, body: seq<string>, mid: seq<string>, rest: seq<string>)
    requires NoParens(pre) && NoParens(body) && NoParens(mid) && GroupComplete(body)
    ensures Validation(pre + ["("] + body + [")"] + mid + [")"] + rest) == Fail(UnmatchedParentheses)
  {
    var ts := pre + ["("] + body + [")"] + mid + [")"] + rest;
    var p, n := |pre|, |body|;
    assert ts[..p] == pre;
    SkipFlat(ts, 0, pre, []);
    assert ts[p + 1..p + n + 1] == body;
    GroupAt(ts, p, n, []);
    assert ts[p + n + 2..p + n + 2 + |mid|] == mid;
    SkipFlat(ts, p + n + 2, mid, []);
  }

  /** Without brackets, evaluation is the fold followed by the final check. */
  lemma {:induction false} EvalWithoutBrackets(ts: seq<string>, floatIsZero: FloatTerm -> bool)
    requires NoParens(ts)
    ensures EvalTokens(ts, floatIsZero) == Finish(Fold([], ts, floatIsZero))
  {
    ValidateFromNoParens(ts, 0);
    StripNoParens(ts);
  }

  lemma {:induction false} StripAppend(xs: seq<string>, ys: seq<string>)
    ensures StripParens(xs + ys) == StripParens(xs) + StripParens(ys)
  {
    if xs != [] {
      assert (xs + ys)[1..] == xs[1..] + ys;
      StripAppend(xs[1..], ys);
    } else {
      assert xs + ys == ys;
    }
  }

  lemma {:induction false} GroupValidation(pre: seq<string>, body: seq<string>, rest: seq<string>)
    requires NoParens(pre) && NoParens(body) && NoParens(rest)
    ensures Validation(pre + ["("] + body + [")"] + rest) ==
              if body == [] then Fail(EmptyParentheses)
              else if !GroupComplete(body) then Fail(IncompleteInParentheses(body))
              else Pass
  {
    var ts := pre + ["("] + body + [")"] + rest;
    var p, n := |pre|, |body|;
    assert ts[..p] == pre;
    SkipFlat(ts, 0, pre, []);
    assert ts[p + 1..p + n + 1] == body;
    GroupAt(ts, p, n, []);
    assert ts[p + n + 2..] == rest;
    SkipFlat(ts, p + n + 2, rest, []);
  }

  lemma {:induction false} StripGroup(pre: seq<string>, body: seq<string>, rest: seq<string>)
    requires NoParens(pre) && NoParens(body) && NoParens(rest)
    ensures StripParens(pre + ["("] + body + [")"] + rest) == pre + body + rest
  {
    StripAppend(pre + ["("] + body + [")"], rest);
    StripAppend(pre + ["("] + body, [")"]);
    StripAppend(pre + ["("], body);
    StripAppend(pre, ["("]);
    StripNoParens(pre);
    StripNoParens(body);
    StripNoParens(rest);
  }

  lemma {:induction false} FlatConcat(pre: seq<string>, body: seq<string>, rest: seq<string>)
    requires NoParens(pre) && NoParens(body) && NoParens(rest)
    ensures NoParens(pre + body + rest)
  {
    var ts := pre + body + rest;
    forall k | 0 <= k < |ts|
      ensures !IsParen(ts[k])
    {
      if k < |pre| {
        assert ts[k] == pre[k];
      } else if k < |pre| + |body| {
        assert ts[k] == body[k - |pre|];
      } else {
        assert ts[k] == rest[k - |pre| - |body|];
      }
    }
  }

  /** One bracketed group among bracket-free tokens: "()" is EmptyParentheses, an
      incomplete group is IncompleteInParentheses, and a complete one evaluates
      exactly as it would without the brackets. */
  lemma {:induction false} Bracketed(pre: seq<string>, body: seq<string>, rest: seq<string>, floatIsZero: FloatTerm -> bool)
    requires NoParens(pre) && NoParens(body) && NoParens(rest)
    ensures body == [] ==>
              EvalTokens(pre + ["("] + body + [")"] + rest, floatIsZero) == Err(EmptyParentheses)
    ensures body != [] && !GroupComplete(body) ==>
              EvalTokens(pre + ["("] + body + [")"] + rest, floatIsZero) == Err(IncompleteInParentheses(body))
    ensures GroupComplete(body) ==>
              EvalTokens(pre + ["("] + body + [")"] + rest, floatIsZero) == EvalTokens(pre + body + rest, floatIsZero)
  {
    GroupValidation(pre, body, rest);
    if GroupComplete(body) {
      FlatConcat(pre, body, rest);
      StripGroup(pre, body, rest);
      EvalWithoutBrackets(pre + body + rest, floatIsZero);
    }
  }

  /** A closing bracket at the end of a group does not change its arity. */
  lemma {:induction false} ArityCloseAfter(ts: seq<string>, h: nat)
    ensures Arity(ts + [")"], h) == Arity(ts, h)
    decreases |ts|
  {
    if ts != [] {
      assert (ts + [")"])[1..] == ts[1..] + [")"];
      if IsOperator(ts[0]) {
        if h >= 2 {
          ArityCloseAfter(ts[1..], h - 1);
        }
      } else if IsParen(ts[0]) {
        ArityCloseAfter(ts[1..], h);
      } else {
        ArityCloseAfter(ts[1..], h + 1);
      }
    }
  }

  /** A complete group stays complete with brackets around it. */
  lemma {:induction false} BracketedComplete(body: seq<string>)
    requires GroupComplete(body)
    ensures GroupComplete(["("] + body + [")"])
  {
    assert (["("] + body + [")"])[1..] == body + [")"];
    ArityCloseAfter(body, 0);
  }

  /** Two brackets around one complete bracket-free group pass validation. */
  lemma {:induction false} DoubleGroupPasses(body: seq<string>)
    requires NoParens(body) && GroupComplete(body)
    ensures Validation(["(", "("] + body + [")", ")"]) == Pass
  {
    var ts := ["(", "("] + body + [")", ")"];
    var n := |body|;
    assert n > 0;
    assert ts[0] == "(" && ts[1] == "(" && ts[n + 2] == ")" && ts[n + 3] == ")";
    assert ValidateFrom(ts, 0, []) == ValidateFrom(ts, 1, [0]) by {
      assert [] + [0] == [0];
    }
    assert forall k | 1 < k <= n + 1 :: ts[k] == body[k - 2];
    GroupAt(ts, 1, n, [0]);
    BracketedComplete(body);
    assert ts[1..n + 3] == ["("] + body + [")"];
    assert ValidateFrom(ts, n + 3, [0]) == ValidateFrom(ts, n + 4, []);
  }

  /** Dropping the brackets of "( ( body ) )" leaves the body. */
  lemma {:induction false} DoubleGroupStrip(body: seq<string>)
    requires NoParens(body)
    ensures StripParens(["(", "("] + body + [")", ")"]) == body
  {
    var ts := ["(", "("] + body + [")", ")"];
    assert ts[1..][1..] == body + [")", ")"];
    assert StripParens(ts) == StripParens(body + [")", ")"]);
    StripAppend(body, [")", ")"]);
    assert StripParens([")", ")"]) == [] by {
      assert [")", ")"][1..] == [")"];
    }
    StripNoParens(body);
  }

  /** "x y +" and "y x +" agree, and so do "x y *" and "y x *", on ints. */
  lemma {:induction false} AddMulCommute(x: int, y: int, op: string, floatIsZero: FloatTerm -> bool)
    requires op == "+" || op == "*"
    ensures Eval(BinaryExpression(x, y, op), floatIsZero) == Eval(BinaryExpression(y, x, op), floatIsZero)
  {
    EvalBinary(x, y, op, floatIsZero);
    EvalBinary(y, x, op, floatIsZero);
  }

  /** Operand order matters for "-": "x y -" is x - y, so it differs from "y x -"
      whenever x and y do. */
  lemma {:induction false} SubtractionOrder(x: int, y: int, floatIsZero: FloatTerm -> bool)
    ensures Eval(BinaryExpression(x, y, "-"), floatIsZero) == Ok(Int(x - y))
    ensures x != y ==> Eval(BinaryExpression(x, y, "-"), floatIsZero) != Eval(BinaryExpression(y, x, "-"), floatIsZero)
  {
    EvalBinary(x, y, "-", floatIsZero);
    EvalBinary(y, x, "-", floatIsZero);
  }

  /** Operand order matters for "/": the divisor is the top of the stack. */
  lemma {:induction false} DivisionOrder(x: int, y: int, floatIsZero: FloatTerm -> bool)
    ensures Eval(BinaryExpression(x, y, "/"), floatIsZero) ==
            if y == 0 then Err(DivisionByZero) else Ok(Flt(Computed("/", Int(x), Int(y))))
  {
    EvalBinary(x, y, "/", floatIsZero);
  }
}
