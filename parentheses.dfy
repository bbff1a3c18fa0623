/** `_validate_parentheses`: bracket balance, and every bracketed group must reduce
    to exactly one value by the RPN arity rule. */
module Parentheses {
  import opened Values

  /** The height of the throwaway stack after the tokens of a group, starting from
      height h: parentheses are skipped, an operator needs two entries and leaves
      one, any other token adds one. None when an operator finds fewer than two. */
  function Arity(ts: seq<string>, h: nat): Option<nat> {
    if ts == [] then Some(h)
    else if IsOperator(ts[0]) then (if h < 2 then None else Arity(ts[1..], h - 1))
    else if IsParen(ts[0]) then Arity(ts[1..], h)
    else Arity(ts[1..], h + 1)
  }

  /** A group that reduces to exactly one value. */
  predicate GroupComplete(group: seq<string>) {
    Arity(group, 0) == Some(1)
  }

  /** The validator's loop from token i on, with `opens` the stack of indices of
      the brackets still open. */
  function ValidateFrom(ts: seq<string>, i: nat, opens: seq<nat>): Check
    requires i <= |ts|
    requires forall d | 0 <= d < |opens| :: opens[d] < i
    decreases |ts| - i
  {
    if i == |ts| then
      if opens == [] then Pass else Fail(UnmatchedParentheses)
    else if ts[i] == "(" then
      ValidateFrom(ts, i + 1, opens + [i])
    else if ts[i] == ")" then
      if opens == [] then Fail(UnmatchedParentheses)
      else
        var o := opens[|opens| - 1];
        if o == i - 1 then Fail(EmptyParentheses)
        else if !GroupComplete(ts[o + 1..i]) then Fail(IncompleteInParentheses(ts[o + 1..i]))
        else ValidateFrom(ts, i + 1, opens[..|opens| - 1])
    else
      ValidateFrom(ts, i + 1, opens)
  }

  function Validation(ts: seq<string>): Check {
    ValidateFrom(ts, 0, [])
  }

  method ValidateParentheses(tokens: seq<string>) returns (r: Check)
    ensures r == Validation(tokens)
  {
    var stack: seq<nat> := [];
    var i := 0;
    while i < |tokens|
      invariant i <= |tokens|
      invariant forall d | 0 <= d < |stack| :: stack[d] < i
      invariant ValidateFrom(tokens, i, stack) == Validation(tokens)
    {
      var token := tokens[i];
      if token == "(" {
        stack := stack + [i];
      } else if token == ")" {
        if stack == [] {
          return Fail(UnmatchedParentheses);
        }
        var openIndex := stack[|stack| - 1];
        stack := stack[..|stack| - 1];
        if openIndex == i - 1 {
          return Fail(EmptyParentheses);
        }
        var exprInside := tokens[openIndex + 1..i];
        var complete := CheckGroup(exprInside);
        if !complete {
          return Fail(IncompleteInParentheses(exprInside));
        }
      }
      i := i + 1;
    }
    if stack != [] {
      return Fail(UnmatchedParentheses);
    }
    return Pass;
  }

  /** The throwaway stack run over one group: operators pop two entries and push
      a placeholder, brackets are skipped, anything else is pushed. */
  method CheckGroup(exprInside: seq<string>) returns (complete: bool)
    ensures complete == GroupComplete(exprInside)
  {
    var tmpStack: seq<string> := [];
    for k := 0 to |exprInside|
      invariant Arity(exprInside, 0) == Arity(exprInside[k..], |tmpStack|)
    {
      var t := exprInside[k];
      assert exprInside[k..][1..] == exprInside[k + 1..];
      if IsOperator(t) {
        if |tmpStack| < 2 {
          return false;
        }
        tmpStack := tmpStack[..|tmpStack| - 2] + ["result"];
      } else if t != "(" && t != ")" {
        tmpStack := tmpStack + [t];
      }
    }
    return |tmpStack| == 1;
  }

  // ---- A reference definition of bracket structure, by nesting depth ----

  function Delta(t: string): int {
    if t == "(" then 1 else if t == ")" then -1 else 0
  }

  /** Opens minus closes among the first k tokens. */
  function Depth(ts: seq<string>, k: nat): int
    requires k <= |ts|
  {
    if k == 0 then 0 else Depth(ts, k - 1) + Delta(ts[k - 1])
  }

  /** No prefix closes more brackets than it opens, and the whole opens as many as it closes. */
  ghost predicate Balanced(ts: seq<string>) {
    (forall k | 0 <= k <= |ts| :: Depth(ts, k) >= 0) && Depth(ts, |ts|) == 0
  }

  /** The bracket at o is closed by the one at j: the depth between them stays above
      the depth at o, and comes back to it after j. */
  ghost predicate Matches(ts: seq<string>, o: nat, j: nat) {
    o < j < |ts| && ts[o] == "(" && ts[j] == ")" &&
    Depth(ts, j + 1) == Depth(ts, o) &&
    forall k | o < k <= j :: Depth(ts, k) > Depth(ts, o)
  }

  /** The facts the validator's loop keeps about its open-index stack at token i. */
  ghost predicate OpensInv(ts: seq<string>, i: nat, opens: seq<nat>) {
    i <= |ts| && |opens| == Depth(ts, i) &&
    (forall k | 0 <= k <= i :: Depth(ts, k) >= 0) &&
    (forall d | 0 <= d < |opens| :: opens[d] < i && ts[opens[d]] == "(" && Depth(ts, opens[d]) == d) &&
    (forall d, k | 0 <= d < |opens| && opens[d] < k <= i :: Depth(ts, k) > d)
  }

  lemma {:induction false} MatchUnique(ts: seq<string>, o1: nat, o2: nat, j: nat)
    requires Matches(ts, o1, j) && Matches(ts, o2, j)
    ensures o1 == o2
  {
  }

  lemma {:induction false} InvAfterOpen(ts: seq<string>, i: nat, opens: seq<nat>)
    requires OpensInv(ts, i, opens) && i < |ts| && ts[i] == "("
    ensures OpensInv(ts, i + 1, opens + [i])
  {
    var opens' := opens + [i];
    forall d, k | 0 <= d < |opens'| && opens'[d] < k <= i + 1
      ensures Depth(ts, k) > d
    {
      if d < |opens| && k <= i {
        assert opens'[d] == opens[d];
      }
    }
  }

  lemma {:induction false} InvAfterClose(ts: seq<string>, i: nat, opens: seq<nat>)
    requires OpensInv(ts, i, opens) && i < |ts| && ts[i] == ")" && opens != []
    ensures Matches(ts, opens[|opens| - 1], i)
    ensures OpensInv(ts, i + 1, opens[..|opens| - 1])
  {
    var opens' := opens[..|opens| - 1];
    forall d, k | 0 <= d < |opens'| && opens'[d] < k <= i + 1
      ensures Depth(ts, k) > d
    {
      if k <= i {
        assert opens'[d] == opens[d];
      }
    }
  }

  lemma {:induction false} InvAfterOther(ts: seq<string>, i: nat, opens: seq<nat>)
    requires OpensInv(ts, i, opens) && i < |ts| && !IsParen(ts[i])
    ensures OpensInv(ts, i + 1, opens)
  {
  }

  /** The pairs whose closing bracket is at or after token i. */
  ghost predicate GroupsCompleteFrom(ts: seq<string>, i: nat) {
    forall o: nat, j: nat | Matches(ts, o, j) && i <= j :: GroupComplete(ts[o + 1..j])
  }

  /** Each failure names a real defect of the token list. */
  ghost predicate Justified(ts: seq<string>, r: Check) {
    match r
    case Pass => true
    case Fail(e) =>
      (e == UnmatchedParentheses && !Balanced(ts)) ||
      (e == EmptyParentheses && exists o: nat, j: nat :: Matches(ts, o, j) && j == o + 1) ||
      (e.IncompleteInParentheses? &&
        exists o: nat, j: nat :: Matches(ts, o, j) && e.group == ts[o + 1..j] && !GroupComplete(e.group))
  }

  lemma {:induction false} ValidateFromCorrect(ts: seq<string>, i: nat, opens: seq<nat>)
    requires OpensInv(ts, i, opens)
    ensures ValidateFrom(ts, i, opens) == Pass <==> Balanced(ts) && GroupsCompleteFrom(ts, i)
    ensures Justified(ts, ValidateFrom(ts, i, opens))
    decreases |ts| - i, 1
  {
    if i == |ts| {
    } else if ts[i] == "(" {
      InvAfterOpen(ts, i, opens);
      ValidateFromCorrect(ts, i + 1, opens + [i]);
      assert GroupsCompleteFrom(ts, i) == GroupsCompleteFrom(ts, i + 1);
    } else if ts[i] == ")" {
      ValidateCloseCorrect(ts, i, opens);
    } else {
      InvAfterOther(ts, i, opens);
      ValidateFromCorrect(ts, i + 1, opens);
      assert GroupsCompleteFrom(ts, i) == GroupsCompleteFrom(ts, i + 1);
    }
  }

  /** The step of ValidateFromCorrect at a closing bracket. */
  lemma {:induction false} ValidateCloseCorrect(ts: seq<string>, i: nat, opens: seq<nat>)
    requires OpensInv(ts, i, opens) && i < |ts| && ts[i] == ")"
    ensures ValidateFrom(ts, i, opens) == Pass <==> Balanced(ts) && GroupsCompleteFrom(ts, i)
    ensures Justified(ts, ValidateFrom(ts, i, opens))
    decreases |ts| - i, 0
  {
    if opens == [] {
      assert Depth(ts, i + 1) < 0;
    } else {
      var o := opens[|opens| - 1];
      InvAfterClose(ts, i, opens);
      assert Matches(ts, o, i);
      if o == i - 1 {
        assert ValidateFrom(ts, i, opens) == Fail(EmptyParentheses);
        assert !GroupComplete(ts[o + 1..i]);
      } else if !GroupComplete(ts[o + 1..i]) {
        assert ValidateFrom(ts, i, opens) == Fail(IncompleteInParentheses(ts[o + 1..i]));
      } else {
        assert ValidateFrom(ts, i, opens) == ValidateFrom(ts, i + 1, opens[..|opens| - 1]);
        ValidateFromCorrect(ts, i + 1, opens[..|opens| - 1]);
        forall o': nat, j: nat | Matches(ts, o', j) && j == i
          ensures GroupComplete(ts[o' + 1..j])
        {
          MatchUnique(ts, o', o, i);
        }
      }
    }
  }

  /** Validation passes exactly when the brackets balance and every matched pair
      encloses a complete group; each failure it reports is justified. */
  lemma {:induction false} ValidationCorrect(ts: seq<string>)
    ensures Validation(ts) == Pass <==> Balanced(ts) && GroupsCompleteFrom(ts, 0)
    ensures Justified(ts, Validation(ts))
  {
    ValidateFromCorrect(ts, 0, []);
  }

  /** Unbalanced brackets never pass. */
  lemma {:induction false} UnbalancedFails(ts: seq<string>)
    requires !Balanced(ts)
    ensures Validation(ts).Fail?
  {
    ValidationCorrect(ts);
  }
}
