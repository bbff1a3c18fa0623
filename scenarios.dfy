/** The calculator's documented cases, derived from the model. A case written
    Join([...]) is the text with those tokens separated by single spaces. The float
    zero test is left arbitrary: no case divides by a float. */
module Scenarios {
  import opened Values
  import opened Numbers
  import opened Tokenizer
  import opened Parentheses
  import opened Calculator
  import opened Expressions

  // ---- Results ----

  /** "3 4 +" is 7. */
  lemma Addition(fz: FloatTerm -> bool)
    ensures Eval(Join(["3", "4", "+"]), fz) == Ok(Int(7))
  {
    assert IntToString(3) == "3" && IntToString(4) == "4";
    var e := Apply("+", Number(3), Number(4));
    assert Compute(e, fz) == Ok(Int(7));
    assert Postfix(e) == ["3", "4", "+"];
    EvalText(e, fz);
  }

  /** "5 3 -" is 2. */
  lemma Subtraction(fz: FloatTerm -> bool)
    ensures Eval(Join(["5", "3", "-"]), fz) == Ok(Int(2))
  {
    assert IntToString(3) == "3" && IntToString(5) == "5";
    var e := Apply("-", Number(5), Number(3));
    assert Compute(e, fz) == Ok(Int(2));
    assert Postfix(e) == ["5", "3", "-"];
    EvalText(e, fz);
  }

  /** "2 3 *" is 6. */
  lemma Multiplication(fz: FloatTerm -> bool)
    ensures Eval(Join(["2", "3", "*"]), fz) == Ok(Int(6))
  {
    assert IntToString(2) == "2" && IntToString(3) == "3";
    var e := Apply("*", Number(2), Number(3));
    assert Compute(e, fz) == Ok(Int(6));
    assert Postfix(e) == ["2", "3", "*"];
    EvalText(e, fz);
  }

  /** "6 2 /" is a float: the quotient of 6 by 2. */
  lemma TrueDivision(fz: FloatTerm -> bool)
    ensures Eval(Join(["6", "2", "/"]), fz) == Ok(Flt(Computed("/", Int(6), Int(2))))
  {
    assert IntToString(2) == "2" && IntToString(6) == "6";
    var e := Apply("/", Number(6), Number(2));
    assert Compute(e, fz) == Ok(Flt(Computed("/", Int(6), Int(2))));
    assert Postfix(e) == ["6", "2", "/"];
    EvalText(e, fz);
  }

  /** "3 4 2 * +" is 11. */
  lemma Combined(fz: FloatTerm -> bool)
    ensures Eval(Join(["3", "4", "2", "*", "+"]), fz) == Ok(Int(11))
  {
    assert IntToString(2) == "2" && IntToString(3) == "3" && IntToString(4) == "4";
    var a := Apply("*", Number(4), Number(2));
    var e := Apply("+", Number(3), a);
    assert Compute(a, fz) == Ok(Int(8));
    assert Compute(e, fz) == Ok(Int(11));
    assert Postfix(a) == ["4", "2", "*"];
    assert Postfix(e) == ["3", "4", "2", "*", "+"];
    EvalText(e, fz);
  }

  lemma NestedOperationsValue(fz: FloatTerm -> bool)
    ensures Compute(Apply("-", Apply("+", Number(5), Apply("*", Apply("+", Number(1), Number(2)), Number(4))), Number(3)), fz) == Ok(Int(14))
  {
    var a := Apply("+", Number(1), Number(2));
    var b := Apply("*", a, Number(4));
    var c := Apply("+", Number(5), b);
    var e := Apply("-", c, Number(3));
    assert Compute(a, fz) == Ok(Int(3));
    assert Compute(b, fz) == Ok(Int(12));
    assert Compute(c, fz) == Ok(Int(17));
    assert Compute(e, fz) == Ok(Int(14));
  }

  lemma NestedOperationsTokens()
    ensures Postfix(Apply("-", Apply("+", Number(5), Apply("*", Apply("+", Number(1), Number(2)), Number(4))), Number(3))) == ["5", "1", "2", "+", "4", "*", "+", "3", "-"]
  {
    assert IntToString(1) == "1" && IntToString(2) == "2" && IntToString(3) == "3" && IntToString(4) == "4" && IntToString(5) == "5";
    var a := Apply("+", Number(1), Number(2));
    var b := Apply("*", a, Number(4));
    var c := Apply("+", Number(5), b);
    var e := Apply("-", c, Number(3));
    assert Postfix(a) == ["1", "2", "+"];
    assert Postfix(b) == ["1", "2", "+", "4", "*"];
    assert Postfix(c) == ["5", "1", "2", "+", "4", "*", "+"];
    assert Postfix(e) == ["5", "1", "2", "+", "4", "*", "+", "3", "-"];
  }

  /** "5 1 2 + 4 * + 3 -" is 14. */
  lemma NestedOperations(fz: FloatTerm -> bool)
    ensures Eval(Join(["5", "1", "2", "+", "4", "*", "+", "3", "-"]), fz) == Ok(Int(14))
  {
    var e := Apply("-", Apply("+", Number(5), Apply("*", Apply("+", Number(1), Number(2)), Number(4))), Number(3));
    NestedOperationsValue(fz);
    NestedOperationsTokens();
    EvalText(e, fz);
  }

  /** "2 3 **" is 8. */
  lemma Power(fz: FloatTerm -> bool)
    ensures Eval(Join(["2", "3", "**"]), fz) == Ok(Int(8))
  {
    assert IntToString(2) == "2" && IntToString(3) == "3";
    var e := Apply("**", Number(2), Number(3));
    assert Compute(e, fz) == Ok(Int(8));
    assert Postfix(e) == ["2", "3", "**"];
    EvalText(e, fz);
  }

  /** "7 3 //" is 2. */
  lemma FloorDivision(fz: FloatTerm -> bool)
    ensures Eval(Join(["7", "3", "//"]), fz) == Ok(Int(2))
  {
    assert IntToString(3) == "3" && IntToString(7) == "7";
    var e := Apply("//", Number(7), Number(3));
    assert Compute(e, fz) == Ok(Int(2));
    assert Postfix(e) == ["7", "3", "//"];
    EvalText(e, fz);
  }

  /** "7 3 %" is 1. */
  lemma Modulo(fz: FloatTerm -> bool)
    ensures Eval(Join(["7", "3", "%"]), fz) == Ok(Int(1))
  {
    assert IntToString(3) == "3" && IntToString(7) == "7";
    var e := Apply("%", Number(7), Number(3));
    assert Compute(e, fz) == Ok(Int(1));
    assert Postfix(e) == ["7", "3", "%"];
    EvalText(e, fz);
  }

  lemma DecimalsValue(fz: FloatTerm -> bool)
    ensures Compute(Apply("+", Decimal("10.5"), Decimal("2.5")), fz) == Ok(Flt(Computed("+", Flt(Literal("10.5")), Flt(Literal("2.5")))))
  {
    assert "10.5"[2] == '.';
    assert "2.5"[1] == '.';
    var e := Apply("+", Decimal("10.5"), Decimal("2.5"));
    assert Compute(e, fz) == Ok(Flt(Computed("+", Flt(Literal("10.5")), Flt(Literal("2.5")))));
  }

  lemma DecimalsTokens()
    ensures Postfix(Apply("+", Decimal("10.5"), Decimal("2.5"))) == ["10.5", "2.5", "+"]
  {
    assert "10.5"[2] == '.';
    assert "2.5"[1] == '.';
    var e := Apply("+", Decimal("10.5"), Decimal("2.5"));
    assert Postfix(e) == ["10.5", "2.5", "+"];
  }

  /** "10.5 2.5 +" is a float: the sum of the two literals. */
  lemma Decimals(fz: FloatTerm -> bool)
    ensures Eval(Join(["10.5", "2.5", "+"]), fz) == Ok(Flt(Computed("+", Flt(Literal("10.5")), Flt(Literal("2.5")))))
  {
    var e := Apply("+", Decimal("10.5"), Decimal("2.5"));
    DecimalsValue(fz);
    DecimalsTokens();
    EvalText(e, fz);
  }

  /** "3 4 * 2 +" is 14. */
  lemma ProductThenSum(fz: FloatTerm -> bool)
    ensures Eval(Join(["3", "4", "*", "2", "+"]), fz) == Ok(Int(14))
  {
    assert IntToString(2) == "2" && IntToString(3) == "3" && IntToString(4) == "4";
    var a := Apply("*", Number(3), Number(4));
    var e := Apply("+", a, Number(2));
    assert Compute(a, fz) == Ok(Int(12));
    assert Compute(e, fz) == Ok(Int(14));
    assert Postfix(a) == ["3", "4", "*"];
    assert Postfix(e) == ["3", "4", "*", "2", "+"];
    EvalText(e, fz);
  }

  /** "2 3 ** 4 5 + *" is 72. */
  lemma PowerThenProduct(fz: FloatTerm -> bool)
    ensures Eval(Join(["2", "3", "**", "4", "5", "+", "*"]), fz) == Ok(Int(72))
  {
    assert IntToString(2) == "2" && IntToString(3) == "3" && IntToString(4) == "4" && IntToString(5) == "5";
    var a := Apply("**", Number(2), Number(3));
    var b := Apply("+", Number(4), Number(5));
    var e := Apply("*", a, b);
    assert Compute(a, fz) == Ok(Int(8));
    assert Compute(b, fz) == Ok(Int(9));
    assert Compute(e, fz) == Ok(Int(72));
    assert Postfix(a) == ["2", "3", "**"];
    assert Postfix(b) == ["4", "5", "+"];
    assert Postfix(e) == ["2", "3", "**", "4", "5", "+", "*"];
    EvalText(e, fz);
  }

  lemma AllOperationsValue(fz: FloatTerm -> bool)
    ensures Compute(Apply("-", Apply("*", Apply("/", Number(15), Apply("-", Number(7), Apply("+", Number(1), Number(1)))), Number(3)), Apply("+", Number(2), Apply("+", Number(1), Number(1)))), fz) == Ok(Flt(Computed("-", Flt(Computed("*", Flt(Computed("/", Int(15), Int(5))), Int(3))), Int(4))))
  {
    var a := Apply("+", Number(1), Number(1));
    var b := Apply("-", Number(7), a);
    var c := Apply("/", Number(15), b);
    var d := Apply("*", c, Number(3));
    var f := Apply("+", Number(1), Number(1));
    var g := Apply("+", Number(2), f);
    var e := Apply("-", d, g);
    assert Compute(f, fz) == Ok(Int(2));
    assert Compute(b, fz) == Ok(Int(5));
    assert Compute(c, fz) == Ok(Flt(Computed("/", Int(15), Int(5))));
    assert Compute(d, fz) == Ok(Flt(Computed("*", Flt(Computed("/", Int(15), Int(5))), Int(3))));
    assert Compute(f, fz) == Ok(Int(2));
    assert Compute(g, fz) == Ok(Int(4));
    assert Compute(e, fz) == Ok(Flt(Computed("-", Flt(Computed("*", Flt(Computed("/", Int(15), Int(5))), Int(3))), Int(4))));
  }

  lemma AllOperationsTokens()
    ensures Postfix(Apply("-", Apply("*", Apply("/", Number(15), Apply("-", Number(7), Apply("+", Number(1), Number(1)))), Number(3)), Apply("+", Number(2), Apply("+", Number(1), Number(1))))) == ["15", "7", "1", "1", "+", "-", "/", "3", "*", "2", "1", "1", "+", "+", "-"]
  {
    assert IntToString(1) == "1" && IntToString(2) == "2" && IntToString(3) == "3" && IntToString(7) == "7" && IntToString(15) == "15";
    var a := Apply("+", Number(1), Number(1));
    var b := Apply("-", Number(7), a);
    var c := Apply("/", Number(15), b);
    var d := Apply("*", c, Number(3));
    var f := Apply("+", Number(1), Number(1));
    var g := Apply("+", Number(2), f);
    var e := Apply("-", d, g);
    assert Postfix(f) == ["1", "1", "+"];
    assert Postfix(b) == ["7", "1", "1", "+", "-"];
    assert Postfix(c) == ["15", "7", "1", "1", "+", "-", "/"];
    assert Postfix(d) == ["15", "7", "1", "1", "+", "-", "/", "3", "*"];
    assert Postfix(f) == ["1", "1", "+"];
    assert Postfix(g) == ["2", "1", "1", "+", "+"];
    assert Postfix(e) == ["15", "7", "1", "1", "+", "-", "/", "3", "*", "2", "1", "1", "+", "+", "-"];
  }

  /** "15 7 1 1 + - / 3 * 2 1 1 + + -" is a float: (15 / 5) * 3 - 4. */
  lemma AllOperations(fz: FloatTerm -> bool)
    ensures Eval(Join(["15", "7", "1", "1", "+", "-", "/", "3", "*", "2", "1", "1", "+", "+", "-"]), fz) == Ok(Flt(Computed("-", Flt(Computed("*", Flt(Computed("/", Int(15), Int(5))), Int(3))), Int(4))))
  {
    var e := Apply("-", Apply("*", Apply("/", Number(15), Apply("-", Number(7), Apply("+", Number(1), Number(1)))), Number(3)), Apply("+", Number(2), Apply("+", Number(1), Number(1))));
    AllOperationsValue(fz);
    AllOperationsTokens();
    EvalText(e, fz);
  }

  /** "10 2 / 3 * 4 +" is a float: (10 / 2) * 3 + 4. */
  lemma Sequential(fz: FloatTerm -> bool)
    ensures Eval(Join(["10", "2", "/", "3", "*", "4", "+"]), fz) == Ok(Flt(Computed("+", Flt(Computed("*", Flt(Computed("/", Int(10), Int(2))), Int(3))), Int(4))))
  {
    assert IntToString(2) == "2" && IntToString(3) == "3" && IntToString(4) == "4" && IntToString(10) == "10";
    var a := Apply("/", Number(10), Number(2));
    var b := Apply("*", a, Number(3));
    var e := Apply("+", b, Number(4));
    assert Compute(a, fz) == Ok(Flt(Computed("/", Int(10), Int(2))));
    assert Compute(b, fz) == Ok(Flt(Computed("*", Flt(Computed("/", Int(10), Int(2))), Int(3))));
    assert Compute(e, fz) == Ok(Flt(Computed("+", Flt(Computed("*", Flt(Computed("/", Int(10), Int(2))), Int(3))), Int(4))));
    assert Postfix(a) == ["10", "2", "/"];
    assert Postfix(b) == ["10", "2", "/", "3", "*"];
    assert Postfix(e) == ["10", "2", "/", "3", "*", "4", "+"];
    EvalText(e, fz);
  }

  /** "(3 4 +) 2 *" is 14. */
  lemma GroupFirst(fz: FloatTerm -> bool)
    ensures Eval(Join(["(", "3", "4", "+", ")", "2", "*"]), fz) == Ok(Int(14))
  {
    assert IntToString(2) == "2" && IntToString(3) == "3" && IntToString(4) == "4";
    var a := Apply("+", Number(3), Number(4));
    var e := Apply("*", a, Number(2));
    assert Compute(a, fz) == Ok(Int(7));
    assert Compute(e, fz) == Ok(Int(14));
    assert Postfix(a) == ["3", "4", "+"];
    assert Postfix(e) == ["3", "4", "+", "2", "*"];
    assert ["(", "3", "4", "+", ")", "2", "*"] == [] + ["("] + Postfix(a) + [")"] + ["2", "*"];
    assert [] + Postfix(a) + ["2", "*"] == Postfix(e);
    BracketedText([], a, ["2", "*"], e, fz);
  }

  /** "3 (4 2 *) +" is 11. */
  lemma GroupInside(fz: FloatTerm -> bool)
    ensures Eval(Join(["3", "(", "4", "2", "*", ")", "+"]), fz) == Ok(Int(11))
  {
    assert IntToString(2) == "2" && IntToString(3) == "3" && IntToString(4) == "4";
    var a := Apply("*", Number(4), Number(2));
    var e := Apply("+", Number(3), a);
    assert Compute(a, fz) == Ok(Int(8));
    assert Compute(e, fz) == Ok(Int(11));
    assert Postfix(a) == ["4", "2", "*"];
    assert Postfix(e) == ["3", "4", "2", "*", "+"];
    assert ["3", "(", "4", "2", "*", ")", "+"] == ["3"] + ["("] + Postfix(a) + [")"] + ["+"];
    assert ["3"] + Postfix(a) + ["+"] == Postfix(e);
    BracketedText(["3"], a, ["+"], e, fz);
  }

  /** "(3 4 + 5 *) 2 /" is a float: 35 / 2. */
  lemma GroupThenDivide(fz: FloatTerm -> bool)
    ensures Eval(Join(["(", "3", "4", "+", "5", "*", ")", "2", "/"]), fz) == Ok(Flt(Computed("/", Int(35), Int(2))))
  {
    assert IntToString(2) == "2" && IntToString(3) == "3" && IntToString(4) == "4" && IntToString(5) == "5";
    var a := Apply("+", Number(3), Number(4));
    var b := Apply("*", a, Number(5));
    var e := Apply("/", b, Number(2));
    assert Compute(a, fz) == Ok(Int(7));
    assert Compute(b, fz) == Ok(Int(35));
    assert Compute(e, fz) == Ok(Flt(Computed("/", Int(35), Int(2))));
    assert Postfix(a) == ["3", "4", "+"];
    assert Postfix(b) == ["3", "4", "+", "5", "*"];
    assert Postfix(e) == ["3", "4", "+", "5", "*", "2", "/"];
    assert ["(", "3", "4", "+", "5", "*", ")", "2", "/"] == [] + ["("] + Postfix(b) + [")"] + ["2", "/"];
    assert [] + Postfix(b) + ["2", "/"] == Postfix(e);
    BracketedText([], b, ["2", "/"], e, fz);
  }

  /** "( ( 3 4 + ) )" is 7: brackets may be nested around the same group. */
  lemma BracketsTwice(fz: FloatTerm -> bool)
    ensures Eval(Join(["(", "(", "3", "4", "+", ")", ")"]), fz) == Ok(Int(7))
  {
    assert IntToString(3) == "3" && IntToString(4) == "4";
    var e := Apply("+", Number(3), Number(4));
    assert Compute(e, fz) == Ok(Int(7));
    assert Postfix(e) == ["3", "4", "+"];
    assert ["(", "(", "3", "4", "+", ")", ")"] == ["(", "("] + Postfix(e) + [")", ")"];
    DoubleBracketedText(e, fz);
  }

  // ---- Arithmetic errors ----

  /** "3 0 /" is DivisionByZero. */
  lemma DivideByZero(fz: FloatTerm -> bool)
    ensures Eval(Join(["3", "0", "/"]), fz) == Err(DivisionByZero)
  {
    assert IntToString(0) == "0" && IntToString(3) == "3";
    var e := Apply("/", Number(3), Number(0));
    assert Compute(e, fz) == Err(DivisionByZero);
    assert Postfix(e) == ["3", "0", "/"];
    EvalText(e, fz);
  }

  /** "3 0 //" is DivisionByZero. */
  lemma FloorDivideByZero(fz: FloatTerm -> bool)
    ensures Eval(Join(["3", "0", "//"]), fz) == Err(DivisionByZero)
  {
    assert IntToString(0) == "0" && IntToString(3) == "3";
    var e := Apply("//", Number(3), Number(0));
    assert Compute(e, fz) == Err(DivisionByZero);
    assert Postfix(e) == ["3", "0", "//"];
    EvalText(e, fz);
  }

  /** "3.5 2 //" is IntegerOperandsRequired. */
  lemma FloatFloorDivision(fz: FloatTerm -> bool)
    ensures Eval(Join(["3.5", "2", "//"]), fz) == Err(IntegerOperandsRequired)
  {
    assert "3.5"[1] == '.';
    assert IntToString(2) == "2";
    var e := Apply("//", Decimal("3.5"), Number(2));
    assert Compute(e, fz) == Err(IntegerOperandsRequired);
    assert Postfix(e) == ["3.5", "2", "//"];
    EvalText(e, fz);
  }

  /** "3.5 2 %" is IntegerOperandsRequired. */
  lemma FloatModulo(fz: FloatTerm -> bool)
    ensures Eval(Join(["3.5", "2", "%"]), fz) == Err(IntegerOperandsRequired)
  {
    assert "3.5"[1] == '.';
    assert IntToString(2) == "2";
    var e := Apply("%", Decimal("3.5"), Number(2));
    assert Compute(e, fz) == Err(IntegerOperandsRequired);
    assert Postfix(e) == ["3.5", "2", "%"];
    EvalText(e, fz);
  }

  // ---- Syntax errors ----

  /** "3 4 + +" is InsufficientOperands: the second "+" finds one value. */
  lemma OperatorWithoutOperands(fz: FloatTerm -> bool)
    ensures Eval(Join(["3", "4", "+", "+"]), fz) == Err(InsufficientOperands("+"))
  {
    assert IntToString(3) == "3" && IntToString(4) == "4";
    var e := Apply("+", Number(3), Number(4));
    assert Compute(e, fz) == Ok(Int(7));
    assert Postfix(e) + ["+"] == ["3", "4", "+", "+"];
    TextOperatorTooMany(e, "+", fz);
  }

  /** "3 4" is InvalidExpression: two values are left. */
  lemma TwoValuesLeft(fz: FloatTerm -> bool)
    ensures Eval(Join(["3", "4"]), fz) == Err(InvalidExpression(2))
  {
    assert IntToString(3) == "3" && IntToString(4) == "4";
    assert Postfix(Number(3)) + Postfix(Number(4)) == ["3", "4"];
    TextTwoExpressions(Number(3), Number(4), fz);
  }

  lemma UnknownWordTokens()
    ensures "abc" != "" && Word("abc") && !IsOperator("abc")
    ensures Emittable(["4", "+"]) && NoParens(["4", "+"])
  {
    LongWordNotOperator("abc");
    PlainCharsMakeWord("abc");
    assert IntToString(4) == "4";
    NumeralIsWord(4); NumeralNotOperator(4); WordToken(IntToString(4));
    OperatorIsWord("+"); WordToken("+");
  }

  /** "abc 4 +" is InvalidToken: "abc" is no number. */
  lemma UnknownWord(fz: FloatTerm -> bool)
    ensures Eval(Join(["abc", "4", "+"]), fz) == Err(InvalidToken("abc"))
  {
    UnknownWordTokens();
    WordRejected();
    assert ["abc", "4", "+"] == ["abc"] + ["4", "+"];
    TextInvalidFirst("abc", ["4", "+"], fz);
  }

  lemma TwoDecimalPointsTokens()
    ensures "12.34.56" != "" && Word("12.34.56") && !IsOperator("12.34.56")
    ensures Emittable(["2", "+"]) && NoParens(["2", "+"])
  {
    LongWordNotOperator("12.34.56");
    PlainCharsMakeWord("12.34.56");
    assert IntToString(2) == "2";
    NumeralIsWord(2); NumeralNotOperator(2); WordToken(IntToString(2));
    OperatorIsWord("+"); WordToken("+");
  }

  /** "12.34.56 2 +" is InvalidToken: a number has at most one decimal point. */
  lemma TwoDecimalPoints(fz: FloatTerm -> bool)
    ensures Eval(Join(["12.34.56", "2", "+"]), fz) == Err(InvalidToken("12.34.56"))
  {
    TwoDecimalPointsTokens();
    TwoPointsRejected();
    assert ["12.34.56", "2", "+"] == ["12.34.56"] + ["2", "+"];
    TextInvalidFirst("12.34.56", ["2", "+"], fz);
  }

  lemma LetterInNumberTokens()
    ensures "1a2" != "" && Word("1a2") && !IsOperator("1a2")
    ensures Emittable(["3", "+"]) && NoParens(["3", "+"])
  {
    LongWordNotOperator("1a2");
    PlainCharsMakeWord("1a2");
    assert IntToString(3) == "3";
    NumeralIsWord(3); NumeralNotOperator(3); WordToken(IntToString(3));
    OperatorIsWord("+"); WordToken("+");
  }

  /** "1a2 3 +" is InvalidToken: a letter inside digits. */
  lemma LetterInNumber(fz: FloatTerm -> bool)
    ensures Eval(Join(["1a2", "3", "+"]), fz) == Err(InvalidToken("1a2"))
  {
    LetterInNumberTokens();
    LetterInsideDigitsRejected();
    assert ["1a2", "3", "+"] == ["1a2"] + ["3", "+"];
    TextInvalidFirst("1a2", ["3", "+"], fz);
  }

  /** "" and "   " are EmptyExpression. */
  lemma EmptyInput(fz: FloatTerm -> bool)
    ensures Eval("", fz) == Err(EmptyExpression)
    ensures Eval("   ", fz) == Err(EmptyExpression)
  {
    EmptyIffBlank("", fz);
    EmptyIffBlank("   ", fz);
    assert IsBlank("   ");
  }

  lemma EmptyGroupTokens()
    ensures Emittable(["(", ")", "3", "4", "+"])
  {
    var ts := ["(", ")", "3", "4", "+"];
    assert IntToString(3) == "3" && IntToString(4) == "4";
    NumeralIsWord(3); NumeralNotOperator(3); WordToken(IntToString(3));
    NumeralIsWord(4); NumeralNotOperator(4); WordToken(IntToString(4));
    OperatorIsWord("+"); WordToken("+");
    BracketTokens();
    assert Emittable(ts);
  }

  lemma EmptyGroupBrackets()
    ensures Validation(["(", ")", "3", "4", "+"]) == Fail(EmptyParentheses)
  {
    var ts := ["(", ")", "3", "4", "+"];
    assert ts == [] + ["("] + [] + [")"] + ["3", "4", "+"];
    assert NoParens([]) && NoParens([]) && NoParens(["3", "4", "+"]);
    GroupValidation([], [], ["3", "4", "+"]);
  }

  /** "( ) 3 4 +" is EmptyParentheses. */
  lemma EmptyGroup(fz: FloatTerm -> bool)
    ensures Eval(Join(["(", ")", "3", "4", "+"]), fz) == Err(EmptyParentheses)
  {
    EmptyGroupTokens();
    EmptyGroupBrackets();
    TextBracketError(["(", ")", "3", "4", "+"], EmptyParentheses, fz);
  }

  lemma GroupMissingOperandTokens()
    ensures Emittable(["(", "4", "+", ")", "2", "*"])
  {
    var ts := ["(", "4", "+", ")", "2", "*"];
    assert IntToString(2) == "2" && IntToString(4) == "4";
    NumeralIsWord(2); NumeralNotOperator(2); WordToken(IntToString(2));
    NumeralIsWord(4); NumeralNotOperator(4); WordToken(IntToString(4));
    OperatorIsWord("+"); WordToken("+");
    OperatorIsWord("*"); WordToken("*");
    BracketTokens();
    assert Emittable(ts);
  }

  lemma GroupMissingOperandBrackets()
    ensures Validation(["(", "4", "+", ")", "2", "*"]) == Fail(IncompleteInParentheses(["4", "+"]))
  {
    var ts := ["(", "4", "+", ")", "2", "*"];
    assert ts == [] + ["("] + ["4", "+"] + [")"] + ["2", "*"];
    assert NoParens([]) && NoParens(["4", "+"]) && NoParens(["2", "*"]);
    GroupValidation([], ["4", "+"], ["2", "*"]);
  }

  /** "( 4 + ) 2 *" is IncompleteInParentheses: the "+" inside has one operand. */
  lemma GroupMissingOperand(fz: FloatTerm -> bool)
    ensures Eval(Join(["(", "4", "+", ")", "2", "*"]), fz) == Err(IncompleteInParentheses(["4", "+"]))
  {
    GroupMissingOperandTokens();
    GroupMissingOperandBrackets();
    TextBracketError(["(", "4", "+", ")", "2", "*"], IncompleteInParentheses(["4", "+"]), fz);
  }

  lemma GroupOfTwoValuesTokens()
    ensures Emittable(["(", "3", "4", ")", "2", "*"])
  {
    var ts := ["(", "3", "4", ")", "2", "*"];
    assert IntToString(2) == "2" && IntToString(3) == "3" && IntToString(4) == "4";
    NumeralIsWord(2); NumeralNotOperator(2); WordToken(IntToString(2));
    NumeralIsWord(3); NumeralNotOperator(3); WordToken(IntToString(3));
    NumeralIsWord(4); NumeralNotOperator(4); WordToken(IntToString(4));
    OperatorIsWord("*"); WordToken("*");
    BracketTokens();
    assert Emittable(ts);
  }

  lemma GroupOfTwoValuesBrackets()
    ensures Validation(["(", "3", "4", ")", "2", "*"]) == Fail(IncompleteInParentheses(["3", "4"]))
  {
    var ts := ["(", "3", "4", ")", "2", "*"];
    assert ts == [] + ["("] + ["3", "4"] + [")"] + ["2", "*"];
    assert NoParens([]) && NoParens(["3", "4"]) && NoParens(["2", "*"]);
    GroupValidation([], ["3", "4"], ["2", "*"]);
  }

  /** "( 3 4 ) 2 *" is IncompleteInParentheses: the group leaves two values. */
  lemma GroupOfTwoValues(fz: FloatTerm -> bool)
    ensures Eval(Join(["(", "3", "4", ")", "2", "*"]), fz) == Err(IncompleteInParentheses(["3", "4"]))
  {
    GroupOfTwoValuesTokens();
    GroupOfTwoValuesBrackets();
    TextBracketError(["(", "3", "4", ")", "2", "*"], IncompleteInParentheses(["3", "4"]), fz);
  }

  lemma NestedIncompleteGroupTokens()
    ensures Emittable(["(", "3", "(", "4", "+", ")", ")", "2", "*"])
  {
    var ts := ["(", "3", "(", "4", "+", ")", ")", "2", "*"];
    assert IntToString(2) == "2" && IntToString(3) == "3" && IntToString(4) == "4";
    NumeralIsWord(2); NumeralNotOperator(2); WordToken(IntToString(2));
    NumeralIsWord(3); NumeralNotOperator(3); WordToken(IntToString(3));
    NumeralIsWord(4); NumeralNotOperator(4); WordToken(IntToString(4));
    OperatorIsWord("+"); WordToken("+");
    OperatorIsWord("*"); WordToken("*");
    BracketTokens();
    assert Emittable(ts);
  }

  lemma NestedIncompleteGroupBrackets()
    ensures Validation(["(", "3", "(", "4", "+", ")", ")", "2", "*"]) == Fail(IncompleteInParentheses(["4", "+"]))
  {
    var ts := ["(", "3", "(", "4", "+", ")", ")", "2", "*"];
    assert ts == ["("] + ["3"] + ["("] + ["4", "+"] + [")"] + [")", "2", "*"];
    assert NoParens(["3"]) && NoParens(["4", "+"]) && !GroupComplete(["4", "+"]);
    InnerGroupFails(["3"], ["4", "+"], [")", "2", "*"]);
  }

  /** "( 3 ( 4 + ) ) 2 *" is IncompleteInParentheses: the inner group is checked first. */
  lemma NestedIncompleteGroup(fz: FloatTerm -> bool)
    ensures Eval(Join(["(", "3", "(", "4", "+", ")", ")", "2", "*"]), fz) == Err(IncompleteInParentheses(["4", "+"]))
  {
    NestedIncompleteGroupTokens();
    NestedIncompleteGroupBrackets();
    TextBracketError(["(", "3", "(", "4", "+", ")", ")", "2", "*"], IncompleteInParentheses(["4", "+"]), fz);
  }

  lemma NestedEmptyGroupTokens()
    ensures Emittable(["(", "(", ")", "3", "4", "+", ")", "2", "*"])
  {
    var ts := ["(", "(", ")", "3", "4", "+", ")", "2", "*"];
    assert IntToString(2) == "2" && IntToString(3) == "3" && IntToString(4) == "4";
    NumeralIsWord(2); NumeralNotOperator(2); WordToken(IntToString(2));
    NumeralIsWord(3); NumeralNotOperator(3); WordToken(IntToString(3));
    NumeralIsWord(4); NumeralNotOperator(4); WordToken(IntToString(4));
    OperatorIsWord("+"); WordToken("+");
    OperatorIsWord("*"); WordToken("*");
    BracketTokens();
    assert Emittable(ts);
  }

  lemma NestedEmptyGroupBrackets()
    ensures Validation(["(", "(", ")", "3", "4", "+", ")", "2", "*"]) == Fail(EmptyParentheses)
  {
    var ts := ["(", "(", ")", "3", "4", "+", ")", "2", "*"];
    assert ts == ["("] + [] + ["("] + [] + [")"] + ["3", "4", "+", ")", "2", "*"];
    assert NoParens([]) && NoParens([]) && !GroupComplete([]);
    InnerGroupFails([], [], ["3", "4", "+", ")", "2", "*"]);
  }

  /** "( ( ) 3 4 + ) 2 *" is EmptyParentheses: the inner "( )" is empty. */
  lemma NestedEmptyGroup(fz: FloatTerm -> bool)
    ensures Eval(Join(["(", "(", ")", "3", "4", "+", ")", "2", "*"]), fz) == Err(EmptyParentheses)
  {
    NestedEmptyGroupTokens();
    NestedEmptyGroupBrackets();
    TextBracketError(["(", "(", ")", "3", "4", "+", ")", "2", "*"], EmptyParentheses, fz);
  }

  // ---- Unbalanced brackets ----

  lemma OuterNotClosedTokens()
    ensures Emittable(["(", "(", "3", "4", "+", ")", "2", "*"])
  {
    var ts := ["(", "(", "3", "4", "+", ")", "2", "*"];
    assert IntToString(2) == "2" && IntToString(3) == "3" && IntToString(4) == "4";
    NumeralIsWord(2); NumeralNotOperator(2); WordToken(IntToString(2));
    NumeralIsWord(3); NumeralNotOperator(3); WordToken(IntToString(3));
    NumeralIsWord(4); NumeralNotOperator(4); WordToken(IntToString(4));
    OperatorIsWord("+"); WordToken("+");
    OperatorIsWord("*"); WordToken("*");
    BracketTokens();
    assert Emittable(ts);
  }

  lemma OuterNotClosedBrackets()
    ensures Validation(["(", "(", "3", "4", "+", ")", "2", "*"]) == Fail(UnmatchedParentheses)
  {
    var ts := ["(", "(", "3", "4", "+", ")", "2", "*"];
    assert ts == ["("] + [] + ["("] + ["3", "4", "+"] + [")"] + ["2", "*"];
    assert ["3", "4", "+"] == Postfix(Apply("+", Number(3), Number(4)));
    PostfixComplete(Apply("+", Number(3), Number(4)));
    assert NoParens([]) && NoParens(["3", "4", "+"]) && NoParens(["2", "*"]);
    OpenAroundGroup([], ["3", "4", "+"], ["2", "*"]);
  }

  /** "( ( 3 4 + ) 2 *" is UnmatchedParentheses: the first "(" stays open. */
  lemma OuterNotClosed(fz: FloatTerm -> bool)
    ensures Eval(Join(["(", "(", "3", "4", "+", ")", "2", "*"]), fz) == Err(UnmatchedParentheses)
  {
    OuterNotClosedTokens();
    OuterNotClosedBrackets();
    TextBracketError(["(", "(", "3", "4", "+", ")", "2", "*"], UnmatchedParentheses, fz);
  }

  lemma ExtraCloseTokens()
    ensures Emittable(["(", "3", "4", "+", ")", ")", "2", "*"])
  {
    var ts := ["(", "3", "4", "+", ")", ")", "2", "*"];
    assert IntToString(2) == "2" && IntToString(3) == "3" && IntToString(4) == "4";
    NumeralIsWord(2); NumeralNotOperator(2); WordToken(IntToString(2));
    NumeralIsWord(3); NumeralNotOperator(3); WordToken(IntToString(3));
    NumeralIsWord(4); NumeralNotOperator(4); WordToken(IntToString(4));
    OperatorIsWord("+"); WordToken("+");
    OperatorIsWord("*"); WordToken("*");
    BracketTokens();
    assert Emittable(ts);
  }

  lemma ExtraCloseBrackets()
    ensures Validation(["(", "3", "4", "+", ")", ")", "2", "*"]) == Fail(UnmatchedParentheses)
  {
    var ts := ["(", "3", "4", "+", ")", ")", "2", "*"];
    assert ts == [] + ["("] + ["3", "4", "+"] + [")"] + [] + [")"] + ["2", "*"];
    assert ["3", "4", "+"] == Postfix(Apply("+", Number(3), Number(4)));
    PostfixComplete(Apply("+", Number(3), Number(4)));
    assert NoParens([]) && NoParens(["3", "4", "+"]);
    CloseAfterGroup([], ["3", "4", "+"], [], ["2", "*"]);
  }

  /** "( 3 4 + ) ) 2 *" is UnmatchedParentheses: the second ")" closes nothing. */
  lemma ExtraClose(fz: FloatTerm -> bool)
    ensures Eval(Join(["(", "3", "4", "+", ")", ")", "2", "*"]), fz) == Err(UnmatchedParentheses)
  {
    ExtraCloseTokens();
    ExtraCloseBrackets();
    TextBracketError(["(", "3", "4", "+", ")", ")", "2", "*"], UnmatchedParentheses, fz);
  }

  lemma CloseBeforeOpenTokens()
    ensures Emittable([")", "3", "4", "+", "("])
  {
    var ts := [")", "3", "4", "+", "("];
    assert IntToString(3) == "3" && IntToString(4) == "4";
    NumeralIsWord(3); NumeralNotOperator(3); WordToken(IntToString(3));
    NumeralIsWord(4); NumeralNotOperator(4); WordToken(IntToString(4));
    OperatorIsWord("+"); WordToken("+");
    BracketTokens();
    assert Emittable(ts);
  }

  lemma CloseBeforeOpenBrackets()
    ensures Validation([")", "3", "4", "+", "("]) == Fail(UnmatchedParentheses)
  {
    var ts := [")", "3", "4", "+", "("];
    assert ts == [] + [")"] + ["3", "4", "+", "("];
    assert NoParens([]);
    StrayClose([], ["3", "4", "+", "("]);
  }

  /** ") 3 4 + (" is UnmatchedParentheses: it starts with ")". */
  lemma CloseBeforeOpen(fz: FloatTerm -> bool)
    ensures Eval(Join([")", "3", "4", "+", "("]), fz) == Err(UnmatchedParentheses)
  {
    CloseBeforeOpenTokens();
    CloseBeforeOpenBrackets();
    TextBracketError([")", "3", "4", "+", "("], UnmatchedParentheses, fz);
  }

  lemma OpenNeverClosedTokens()
    ensures Emittable(["(", "3", "4", "+", "2", "*"])
  {
    var ts := ["(", "3", "4", "+", "2", "*"];
    assert IntToString(2) == "2" && IntToString(3) == "3" && IntToString(4) == "4";
    NumeralIsWord(2); NumeralNotOperator(2); WordToken(IntToString(2));
    NumeralIsWord(3); NumeralNotOperator(3); WordToken(IntToString(3));
    NumeralIsWord(4); NumeralNotOperator(4); WordToken(IntToString(4));
    OperatorIsWord("+"); WordToken("+");
    OperatorIsWord("*"); WordToken("*");
    BracketTokens();
    assert Emittable(ts);
  }

  lemma OpenNeverClosedBrackets()
    ensures Validation(["(", "3", "4", "+", "2", "*"]) == Fail(UnmatchedParentheses)
  {
    var ts := ["(", "3", "4", "+", "2", "*"];
    assert ts == [] + ["("] + ["3", "4", "+", "2", "*"];
    assert NoParens([]); assert NoParens(["3", "4", "+", "2", "*"]);
    NeverClosed([], ["3", "4", "+", "2", "*"]);
  }

  /** "( 3 4 + 2 *" is UnmatchedParentheses. */
  lemma OpenNeverClosed(fz: FloatTerm -> bool)
    ensures Eval(Join(["(", "3", "4", "+", "2", "*"]), fz) == Err(UnmatchedParentheses)
  {
    OpenNeverClosedTokens();
    OpenNeverClosedBrackets();
    TextBracketError(["(", "3", "4", "+", "2", "*"], UnmatchedParentheses, fz);
  }

  lemma CloseWithoutOpenTokens()
    ensures Emittable(["3", "4", "+", ")", "2", "*"])
  {
    var ts := ["3", "4", "+", ")", "2", "*"];
    assert IntToString(2) == "2" && IntToString(3) == "3" && IntToString(4) == "4";
    NumeralIsWord(2); NumeralNotOperator(2); WordToken(IntToString(2));
    NumeralIsWord(3); NumeralNotOperator(3); WordToken(IntToString(3));
    NumeralIsWord(4); NumeralNotOperator(4); WordToken(IntToString(4));
    OperatorIsWord("+"); WordToken("+");
    OperatorIsWord("*"); WordToken("*");
    BracketTokens();
    assert Emittable(ts);
  }

  lemma CloseWithoutOpenBrackets()
    ensures Validation(["3", "4", "+", ")", "2", "*"]) == Fail(UnmatchedParentheses)
  {
    var ts := ["3", "4", "+", ")", "2", "*"];
    assert ts == ["3", "4", "+"] + [")"] + ["2", "*"];
    assert NoParens(["3", "4", "+"]);
    StrayClose(["3", "4", "+"], ["2", "*"]);
  }

  /** "3 4 + ) 2 *" is UnmatchedParentheses. */
  lemma CloseWithoutOpen(fz: FloatTerm -> bool)
    ensures Eval(Join(["3", "4", "+", ")", "2", "*"]), fz) == Err(UnmatchedParentheses)
  {
    CloseWithoutOpenTokens();
    CloseWithoutOpenBrackets();
    TextBracketError(["3", "4", "+", ")", "2", "*"], UnmatchedParentheses, fz);
  }

  // ---- Brackets written without spaces ----

  lemma GroupFirstSpaced()
    ensures Join(["(", "3", "4", "+", ")", "2", "*"]) == "( 3 4 + ) 2 *"
  {
    var ws := ["(", "3", "4", "+", ")", "2", "*"];
    assert Join(ws[5..]) == ws[5] + " " + Join(ws[6..]);
    assert Join(ws[4..]) == ws[4] + " " + Join(ws[5..]);
    assert Join(ws[3..]) == ws[3] + " " + Join(ws[4..]);
    assert Join(ws[2..]) == ws[2] + " " + Join(ws[3..]);
    assert Join(ws[1..]) == ws[1] + " " + Join(ws[2..]);
    assert Join(ws[0..]) == ws[0] + " " + Join(ws[1..]);
    assert Join(ws[6..]) == ws[6];
    assert ws[0..] == ws;
  }

  /** No space is needed next to a bracket: "(3 4 +) 2 *" has the tokens of "( 3 4 + ) 2 *". */
  lemma GroupFirstTight()
    ensures Tokens("(3 4 +) 2 *") == Tokens("( 3 4 + ) 2 *")
  {
    SpaceAfterParen("", '(', "3 4 +) 2 *");
    assert "" + ['('] + "3 4 +) 2 *" == "(3 4 +) 2 *";
    assert "" + ['('] + " " + "3 4 +) 2 *" == "( 3 4 +) 2 *";
    SpaceBeforeParen("( 3 4 +", ')', " 2 *");
    assert "( 3 4 +" + [')'] + " 2 *" == "( 3 4 +) 2 *";
    assert "( 3 4 +" + " " + [')'] + " 2 *" == "( 3 4 + ) 2 *";
  }

  lemma EmptyGroupSpaced()
    ensures Join(["(", ")", "3", "4", "+"]) == "( ) 3 4 +"
  {
    var ws := ["(", ")", "3", "4", "+"];
    assert Join(ws[3..]) == ws[3] + " " + Join(ws[4..]);
    assert Join(ws[2..]) == ws[2] + " " + Join(ws[3..]);
    assert Join(ws[1..]) == ws[1] + " " + Join(ws[2..]);
    assert Join(ws[0..]) == ws[0] + " " + Join(ws[1..]);
    assert Join(ws[4..]) == ws[4];
    assert ws[0..] == ws;
  }

  /** No space is needed inside empty brackets: "() 3 4 +" has the tokens of "( ) 3 4 +". */
  lemma EmptyGroupTight()
    ensures Tokens("() 3 4 +") == Tokens("( ) 3 4 +")
  {
    SpaceAfterParen("", '(', ") 3 4 +");
    assert "" + ['('] + ") 3 4 +" == "() 3 4 +";
    assert "" + ['('] + " " + ") 3 4 +" == "( ) 3 4 +";
  }

  /** "() 3 4 +" is EmptyParentheses. */
  lemma EmptyGroupWithoutSpaces(fz: FloatTerm -> bool)
    ensures Eval("() 3 4 +", fz) == Err(EmptyParentheses)
  {
    EmptyGroupSpaced();
    EmptyGroupTight();
    EmptyGroup(fz);
    assert !IsSpace("() 3 4 +"[0]) && !IsSpace("( ) 3 4 +"[0]);
  }

  /** "(3 4 +) 2 *", written as it is usually typed, is 14. */
  lemma GroupFirstWithoutSpaces(fz: FloatTerm -> bool)
    ensures Eval("(3 4 +) 2 *", fz) == Ok(Int(14))
  {
    GroupFirstSpaced();
    GroupFirstTight();
    GroupFirst(fz);
    assert !IsSpace("(3 4 +) 2 *"[0]) && !IsSpace("( 3 4 + ) 2 *"[0]);
  }
}
