/** `_tokenize`: split the expression at whitespace; '(' and ')' are tokens of their own. */
module Tokenizer {

  /** Python's `str.isspace()`: the 29 characters whose bidirectional class is WS, B
      or S, or whose general category is Zs. `str.strip()` removes the same set. */
  predicate IsSpace(c: char) {
    c == ' ' || '\t' <= c <= '\r' || '\U{1c}' <= c <= '\U{1f}' || c == '\U{85}' || c == '\U{a0}' ||
    c == '\U{1680}' || '\U{2000}' <= c <= '\U{200a}' || c == '\U{2028}' || c == '\U{2029}' ||
    c == '\U{202f}' || c == '\U{205f}' || c == '\U{3000}'
  }

  predicate IsParenChar(c: char) {
    c == '(' || c == ')'
  }

  /** The state of the scan: the tokens emitted so far and the pending buffer. */
  datatype Lexer = Lexer(tokens: seq<string>, current: string)

  function Flush(l: Lexer): Lexer {
    if l.current != "" then Lexer(l.tokens + [l.current], "") else l
  }

  /** What the loop does with one character. */
  function Step(l: Lexer, c: char): Lexer {
    if IsSpace(c) then Flush(l)
    else if IsParenChar(c) then Lexer(Flush(l).tokens + [[c]], "")
    else Lexer(l.tokens, l.current + [c])
  }

  /** The state after the loop has read all of s. */
  function Scan(s: string): Lexer {
    if s == [] then Lexer([], "") else Step(Scan(s[..|s| - 1]), s[|s| - 1])
  }

  /** The tokens of s: the final state, with the pending buffer flushed. */
  function Tokens(s: string): seq<string> {
    Flush(Scan(s)).tokens
  }

  method Tokenize(expression: string) returns (tokens: seq<string>)
    ensures tokens == Tokens(expression)
  {
    tokens := [];
    var current := "";
    for i := 0 to |expression|
      invariant Lexer(tokens, current) == Scan(expression[..i])
    {
      var c := expression[i];
      assert expression[..i + 1][..i] == expression[..i];
      if IsSpace(c) {
        if current != "" {
          tokens := tokens + [current];
          current := "";
        }
      } else if c == '(' || c == ')' {
        if current != "" {
          tokens := tokens + [current];
          current := "";
        }
        tokens := tokens + [[c]];
      } else {
        current := current + [c];
      }
    }
    assert expression[..|expression|] == expression;
    if current != "" {
      tokens := tokens + [current];
    }
  }

  /** A token as the tokenizer emits it: non-empty, free of whitespace, and a
      parenthesis only as the whole one-character token. */
  predicate WellFormedToken(t: string) {
    t != "" &&
    (forall i | 0 <= i < |t| :: !IsSpace(t[i])) &&
    (t == "(" || t == ")" || forall i | 0 <= i < |t| :: !IsParenChar(t[i]))
  }

  /** The pending buffer never holds whitespace or a parenthesis. */
  predicate Word(w: string) {
    forall i | 0 <= i < |w| :: !IsSpace(w[i]) && !IsParenChar(w[i])
  }

  /** A word of characters from '*' to 'z' (digits, letters, the decimal point and
      every operator symbol but '%'): none of them is whitespace or a bracket. */
  lemma {:induction false} PlainCharsMakeWord(w: string)
    requires forall i | 0 <= i < |w| :: '*' <= w[i] <= 'z'
    ensures Word(w)
  {
  }

  ghost predicate LexerWellFormed(l: Lexer) {
    (forall k | 0 <= k < |l.tokens| :: WellFormedToken(l.tokens[k])) && Word(l.current)
  }

  lemma {:induction false} ScanWellFormed(s: string)
    ensures LexerWellFormed(Scan(s))
  {
    if s != [] {
      ScanWellFormed(s[..|s| - 1]);
    }
  }

  /** No token is empty, none holds whitespace, and '(' and ')' are only ever whole tokens. */
  lemma {:induction false} TokensWellFormed(s: string)
    ensures forall k | 0 <= k < |Tokens(s)| :: WellFormedToken(Tokens(s)[k])
  {
    ScanWellFormed(s);
  }

  /** The concatenation of a list of strings. */
  function Concat(ts: seq<string>): string {
    if ts == [] then "" else Concat(ts[..|ts| - 1]) + ts[|ts| - 1]
  }

  /** s with its whitespace characters removed, order kept. */
  function RemoveSpaces(s: string): string {
    if s == [] then "" else RemoveSpaces(s[..|s| - 1]) + (if IsSpace(s[|s| - 1]) then "" else [s[|s| - 1]])
  }

  lemma {:induction false} ConcatSnoc(ts: seq<string>, t: string)
    ensures Concat(ts + [t]) == Concat(ts) + t
  {
    assert (ts + [t])[..|ts|] == ts;
  }

  lemma {:induction false} ScanPreservesText(s: string)
    ensures Concat(Scan(s).tokens) + Scan(s).current == RemoveSpaces(s)
  {
    if s != [] {
      var p, c := s[..|s| - 1], s[|s| - 1];
      ScanPreservesText(p);
      var l := Scan(p);
      assert Scan(s) == Step(l, c);
      assert RemoveSpaces(s) == RemoveSpaces(p) + (if IsSpace(c) then "" else [c]);
      ConcatSnoc(l.tokens, l.current);
      if !IsSpace(c) && IsParenChar(c) {
        ConcatSnoc(Flush(l).tokens, [c]);
      }
    }
  }

  /** Concatenating the tokens gives back the input without its whitespace. */
  lemma {:induction false} TokensPreserveText(s: string)
    ensures Concat(Tokens(s)) == RemoveSpaces(s)
  {
    ScanPreservesText(s);
    ConcatSnoc(Scan(s).tokens, Scan(s).current);
  }

  /** The parenthesis tokens of a token list, in order. */
  function ParenTokens(ts: seq<string>): seq<string> {
    if ts == [] then [] else ParenTokens(ts[..|ts| - 1]) + (if ts[|ts| - 1] in {"(", ")"} then [ts[|ts| - 1]] else [])
  }

  /** The parentheses of the input, in order, each as a one-character string. */
  function ParenChars(s: string): seq<string> {
    if s == [] then [] else ParenChars(s[..|s| - 1]) + (if IsParenChar(s[|s| - 1]) then [[s[|s| - 1]]] else [])
  }

  lemma {:induction false} ParenTokensSnoc(ts: seq<string>, t: string)
    ensures ParenTokens(ts + [t]) == ParenTokens(ts) + (if t in {"(", ")"} then [t] else [])
  {
    assert (ts + [t])[..|ts|] == ts;
  }

  lemma {:induction false} ScanKeepsParens(s: string)
    ensures ParenTokens(Scan(s).tokens) == ParenChars(s)
    ensures Word(Scan(s).current)
  {
    if s != [] {
      var p, c := s[..|s| - 1], s[|s| - 1];
      ScanKeepsParens(p);
      var l := Scan(p);
      FlushKeepsParens(l);
      if IsSpace(c) {
        assert Scan(s) == Flush(l);
      } else if IsParenChar(c) {
        ParenTokensSnoc(Flush(l).tokens, [c]);
      } else {
        assert Scan(s) == Lexer(l.tokens, l.current + [c]);
        assert Word(l.current + [c]);
      }
    }
  }

  lemma {:induction false} FlushKeepsParens(l: Lexer)
    requires Word(l.current)
    ensures ParenTokens(Flush(l).tokens) == ParenTokens(l.tokens)
  {
    if l.current != "" {
      ParenTokensSnoc(l.tokens, l.current);
      assert !IsParenChar(l.current[0]);
    }
  }

  /** Every '(' and ')' of the input is emitted as a token of its own, in input order. */
  lemma {:induction false} TokensKeepParens(s: string)
    ensures ParenTokens(Tokens(s)) == ParenChars(s)
  {
    ScanKeepsParens(s);
    FlushKeepsParens(Scan(s));
  }

  lemma {:induction false} StepShift(t: seq<string>, l: Lexer, c: char)
    ensures Step(Lexer(t + l.tokens, l.current), c) == Lexer(t + Step(l, c).tokens, Step(l, c).current)
  {
    assert t + (l.tokens + [l.current]) == t + l.tokens + [l.current];
    assert t + (Flush(l).tokens + [[c]]) == t + Flush(l).tokens + [[c]];
  }

  lemma {:induction false} ScanAfterBoundary(p: string, b: string)
    requires Scan(p).current == ""
    ensures Scan(p + b) == Lexer(Scan(p).tokens + Scan(b).tokens, Scan(b).current)
  {
    if b == [] {
      assert p + b == p;
    } else {
      var b', x := b[..|b| - 1], b[|b| - 1];
      assert (p + b)[..|p + b| - 1] == p + b';
      ScanAfterBoundary(p, b');
      StepShift(Scan(p).tokens, Scan(b'), x);
    }
  }

  /** A whitespace character or a parenthesis ends every token: tokenizing the two
      sides of it separately gives the same tokens. */
  lemma {:induction false} TokensSplit(a: string, c: char, b: string)
    requires IsSpace(c) || IsParenChar(c)
    ensures Tokens(a + [c] + b) == Tokens(a) + (if IsParenChar(c) then [[c]] else []) + Tokens(b)
  {
    assert (a + [c])[..|a|] == a;
    ScanAfterBoundary(a + [c], b);
  }

  /** A run of characters with no whitespace and no parenthesis is one token. */
  lemma {:induction false} TokensOfWord(w: string)
    requires w != "" && Word(w)
    ensures Tokens(w) == [w]
  {
    ScanOfWord(w);
  }

  lemma {:induction false} ScanOfWord(w: string)
    requires Word(w)
    ensures Scan(w) == Lexer([], w)
  {
    if w != [] {
      var p, c := w[..|w| - 1], w[|w| - 1];
      assert !IsSpace(c) && !IsParenChar(c);
      assert Word(p);
      ScanOfWord(p);
      assert Step(Lexer([], p), c) == Lexer([], p + [c]);
      assert p + [c] == w;
    }
  }

  /** Words written out with one space between each two. */
  function Join(ws: seq<string>): string {
    if ws == [] then "" else if |ws| == 1 then ws[0] else ws[0] + " " + Join(ws[1..])
  }

  /** A bracket needs no space after it: adding one does not change the tokens. */
  lemma {:induction false} SpaceAfterParen(a: string, p: char, b: string)
    requires IsParenChar(p)
    ensures Tokens(a + [p] + b) == Tokens(a + [p] + " " + b)
  {
    TokensSplit(a, p, b);
    assert a + [p] + " " + b == a + [p] + (" " + b);
    TokensSplit(a, p, " " + b);
    assert " " + b == [] + [' '] + b;
    TokensSplit([], ' ', b);
  }

  /** A bracket needs no space before it: adding one does not change the tokens. */
  lemma {:induction false} SpaceBeforeParen(a: string, p: char, b: string)
    requires IsParenChar(p)
    ensures Tokens(a + [p] + b) == Tokens(a + " " + [p] + b)
  {
    TokensSplit(a, p, b);
    TokensSplit(a + " ", p, b);
    assert a + " " == a + [' '] + [];
    TokensSplit(a, ' ', []);
  }

  /** Words written out with single spaces come back as the same words. */
  lemma {:induction false} TokensOfJoin(ws: seq<string>)
    requires forall k | 0 <= k < |ws| :: WellFormedToken(ws[k])
    ensures Tokens(Join(ws)) == ws
  {
    if |ws| == 1 {
      TokensOfToken(ws[0]);
    } else if |ws| > 1 {
      TokensOfToken(ws[0]);
      TokensOfJoin(ws[1..]);
      TokensSplit(ws[0], ' ', Join(ws[1..]));
      assert ws == [ws[0]] + ws[1..];
    }
  }

  /** A well-formed token on its own tokenizes to itself. */
  lemma {:induction false} TokensOfToken(t: string)
    requires WellFormedToken(t)
    ensures Tokens(t) == [t]
  {
    if t == "(" || t == ")" {
      assert t == "" + [t[0]] + "";
      TokensSplit("", t[0], "");
    } else {
      TokensOfWord(t);
    }
  }
}
