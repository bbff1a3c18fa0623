# RPN calculator: a verified model of `RPNCalculator`

This project models the reverse-Polish-notation evaluator `RPNCalculator` of
`src/calculator.py` in Dafny and proves properties of it. The evaluator is one
pipeline:

1. the blank check;
2. the character-level tokenizer `_tokenize`;
3. the bracket validator `_validate_parentheses`, which keeps a stack of open-bracket
   indices and runs a throwaway arity count over each closed group;
4. dropping the brackets;
5. the left-to-right stack fold of `evaluate`, which pushes numbers parsed by
   `_parse_number` and applies operators through `_apply_operator`;
6. the demand that exactly one value remains.

Modules, one per stage:

- `Values`: the value, float-term and error datatypes, and the seven operator symbols.
- `Operators`: `_apply_operator`, with Python's floor `//` and `%` written out.
- `Numbers`: `_parse_number`, plus `str(n)` for ints, used to write numerals.
- `Tokenizer`: `_tokenize`.
- `Parentheses`: `_validate_parentheses`.
- `Calculator`: `evaluate`, and the lemmas about the whole pipeline.
- `Expressions`: expression trees written in postfix order. It proves that RPN evaluation computes the tree's value.
- `Scenarios`: the calculator's documented cases, derived from the model.

The three loops of the source are methods with loop invariants. Each is proved
against a function:

- `Tokenize` against `Tokens`, a left fold of one `Step` per character.
- `ValidateParentheses` against `Validation`, with its inner group loop `CheckGroup`
  proved against `GroupComplete`.
- `Evaluate` against `Eval`, with its stack loop `Reduce` proved against
  `Finish(Fold([], tokens))`.

`ParseNumber` and `ApplyOperator` are functions.

Values carry the int/float tag of Python's numbers:

- Ints are exact.
- A float is a symbolic term: the literal it was read from, or the operation that
  produced it. Its IEEE-754 value is not modelled.
- Whether a float equals zero matters for `/` by a float, and for a float base of
  `**` under a negative int exponent. That is decided by the host's arithmetic, so it is the parameter `floatIsZero`.

Errors are kinds, not message texts:

- `DivisionByZero` (the calculator's own guard) and `HostZeroDivision` (Python's own
  `ZeroDivisionError` from `%` by zero, or from a zero base raised to a negative int power) are the `ZeroDivisionError`s.
- Every other kind is a `ValueError`.

## Model

| member | source | states |
|---|---|---|
| Operators.FloorDiv | src/calculator.py:133 | the result is the floor of the exact quotient, for divisors of either sign |
| Operators.FloorMod | src/calculator.py:134 | `a == b * (a // b) + m`, and the remainder lies between 0 and the divisor, taking the divisor's sign |
| Operators.FloorQuotientUnique | src/calculator.py:133 | the floor quotient is unique, so `FloorDiv`'s contract determines Python's `//` |
| Operators.FloorDivExamples | src/calculator.py:133-134 | `//` and `%` on all four sign combinations agree with Python (7//3 = 2, -7//2 = -4, 7%-3 = -2, ...) |
| Operators.ApplyOperator | src/calculator.py:112-145 | `//` and `%` with a float operand are IntegerOperandsRequired before any zero test. `/` or `//` by zero is DivisionByZero. `%` by int zero, and a zero base (int, or float as `floatIsZero` decides) raised to a negative int power, are the host's ZeroDivisionError. Every failure is one of these three kinds. `+ - *` on ints, and `**` with a non-negative exponent, are exact; `//` is the floor quotient, `%` is the floor remainder. `/` and any float operand give a float |
| Numbers.ParseNumber | src/calculator.py:91-110 | succeeds iff the token is a float literal (when it holds a '.') or an int literal (otherwise). The tag is float exactly when the token holds a '.'. An int's value is its digits with its sign, and a float keeps its literal. Any failure is InvalidToken naming the token |
| Numbers.ParseIntRoundTrip | src/calculator.py:104-108 | every int's decimal numeral parses back to the same int, tagged int (in Python only up to the host's 4300-digit limit on `str`/`int` conversion) |
| Numbers.LiteralTags | src/calculator.py:105-108 | "-12" is the int -12; "3.0" is a float, although integral |
| Numbers.TwoPointsRejected | tests/test_calculator.py:131 | "12.34.56" is InvalidToken |
| Numbers.LetterInsideDigitsRejected | tests/test_calculator.py:132 | "1a2" is InvalidToken |
| Numbers.WordRejected | tests/test_calculator.py:128 | "abc" is InvalidToken |
| Tokenizer.Tokenize | src/calculator.py:60-89 | the loop returns `Tokens(expression)`: the per-character step folded over the input, then the pending buffer flushed |
| Tokenizer.TokensWellFormed | src/calculator.py:70-89 | no token is empty or holds whitespace, and '(' or ')' only ever appears as a whole one-character token |
| Tokenizer.TokensPreserveText | src/calculator.py:73-87 | concatenating the tokens gives the input without its whitespace, in order |
| Tokenizer.TokensKeepParens | src/calculator.py:78-82 | the bracket tokens are exactly the input's brackets, in input order |
| Tokenizer.TokensSplit | src/calculator.py:74-82 | whitespace or a bracket ends every token: the two sides tokenize separately |
| Tokenizer.TokensOfWord | src/calculator.py:83-87 | a run without whitespace or brackets is one token |
| Tokenizer.TokensOfJoin | src/calculator.py:73-87 | well-formed tokens written out with single spaces come back as the same tokens |
| Tokenizer.SpaceAfterParen | src/calculator.py:78-82 | a space after a bracket does not change the tokens |
| Tokenizer.SpaceBeforeParen | src/calculator.py:78-82 | a space before a bracket does not change the tokens |
| Parentheses.ValidateParentheses | src/calculator.py:18-58 | the loop returns `Validation(tokens)`, the validator as a function of the token list |
| Parentheses.CheckGroup | src/calculator.py:42-55 | the throwaway-stack loop accepts a group iff its arity count ends at exactly one without running short |
| Parentheses.ValidationCorrect | src/calculator.py:28-58 | validation passes iff the brackets balance by nesting depth and every matched pair encloses a complete group. Each failure names a real defect: unbalanced, an empty matched pair, or an incomplete matched group |
| Parentheses.UnbalancedFails | src/calculator.py:28-58 | brackets that do not balance never pass |
| Calculator.StripParens | src/calculator.py:166 | the result has no bracket and is no longer than the input |
| Calculator.StripNoParens | src/calculator.py:166 | a bracket-free token list is kept as it is |
| Calculator.StripAppend | src/calculator.py:166 | dropping brackets works piecewise: it distributes over concatenation, so order is kept |
| Calculator.Evaluate | src/calculator.py:147-194 | the method returns `Eval(expression)` |
| Calculator.Reduce | src/calculator.py:167-194 | the stack loop returns `Finish(Fold([], tokens))`; its invariant keeps the stack height equal to numbers minus operators read so far |
| Calculator.FoldPush | src/calculator.py:184-187 | a number token pushes its parsed value |
| Calculator.FoldApply | src/calculator.py:170-179 | an operator pops b (the top), then a, and pushes `a op b` |
| Calculator.FoldApplyFails | src/calculator.py:177-181 | an operator error stops the fold with that error |
| Calculator.FoldShort | src/calculator.py:171-172 | an operator with fewer than two values below it is InsufficientOperands |
| Calculator.FoldRejects | src/calculator.py:185-189 | a token that is neither an operator nor a number is InvalidToken |
| Calculator.FoldHeight | src/calculator.py:169-189 | a fold that succeeds ends at the starting height plus numbers minus operators |
| Calculator.FoldFollowsArity | src/calculator.py:169-189 | if the fold runs short of operands, so does the validator's arity count; if the count runs short, the fold fails, perhaps earlier with another error; a fold that succeeds ends at the height the count predicts; the fold fails only with fold errors |
| Calculator.EmptyIffBlank | src/calculator.py:161-162 | EmptyExpression is reported iff the input is all whitespace |
| Calculator.BlankIffNoTokens | src/calculator.py:161-164 | the input is blank iff the tokenizer emits no token |
| Calculator.EvalNeedsCompleteExpression | src/calculator.py:164-194 | evaluation succeeds only when the bracket-free tokens form one complete expression, and fails on any other non-blank input. InsufficientOperands and InvalidExpression arise only from an incomplete one |
| Calculator.EvalBinary | src/calculator.py:169-194 | "x y op" evaluates to `ApplyOperator(op, x, y)`: the top of the stack is the right operand |
| Calculator.AddMulCommute | src/calculator.py:174-178 | "x y +" and "y x +" agree, and so do "x y *" and "y x *" |
| Calculator.SubtractionOrder | src/calculator.py:174-178 | "x y -" is x - y, and differs from "y x -" whenever x and y differ |
| Calculator.DivisionOrder | src/calculator.py:174-178 | "x y /" divides x by y, and is DivisionByZero when y is 0 |
| Calculator.EvalWithoutBrackets | src/calculator.py:165-166 | bracket-free tokens pass validation and are folded unchanged |
| Calculator.GroupValidation | src/calculator.py:28-58 | one group among bracket-free tokens: empty is EmptyParentheses, incomplete is IncompleteInParentheses of that group, complete passes |
| Calculator.Bracketed | src/calculator.py:164-194 | brackets around a complete group change nothing; the other two cases are the validator's errors |
| Calculator.StrayClose | src/calculator.py:33-35 | a ')' with no bracket before it is UnmatchedParentheses |
| Calculator.NeverClosed | src/calculator.py:57-58 | a '(' followed only by bracket-free tokens is UnmatchedParentheses |
| Calculator.OpenAroundGroup | src/calculator.py:57-58 | an outer '(' left open around a complete inner group is UnmatchedParentheses |
| Calculator.InnerGroupFails | src/calculator.py:36-55 | an empty or incomplete inner group is reported as soon as it closes |
| Calculator.CloseAfterGroup | src/calculator.py:33-35 | a second ')' after a complete group is UnmatchedParentheses |
| Calculator.DoubleGroupPasses | src/calculator.py:28-58 | two brackets around one complete group pass validation |
| Calculator.DoubleGroupStrip | src/calculator.py:166 | dropping the brackets of "( ( g ) )" leaves g |
| Expressions.DecimalToken | src/calculator.py:105-106 | a float literal is one token and is read back as a float holding its own text |
| Expressions.PostfixTokens | src/calculator.py:70-89 | every token of an expression in postfix order is one the tokenizer emits, and none is a bracket |
| Expressions.FoldPostfix | src/calculator.py:169-189 | the fold over an expression pushes exactly its value, or stops with its first error |
| Expressions.ArityPostfix | src/calculator.py:44-55 | the validator's arity count sees an expression as one value |
| Expressions.PostfixComplete | src/calculator.py:42-55 | every expression is a complete group, so brackets around it are accepted |
| Expressions.EvalPostfix | src/calculator.py:164-194 | the postfix tokens of an expression evaluate to the expression's value |
| Expressions.EvalText | src/calculator.py:147-194 | the same for the text with single spaces |
| Expressions.BracketedExpression | src/calculator.py:164-194 | brackets around a whole subexpression change nothing |
| Expressions.BracketedText | src/calculator.py:147-194 | brackets around any complete part of an expression's text leave its value unchanged |
| Expressions.DoubleBracketedText | src/calculator.py:147-194 | two brackets around an expression leave its value unchanged |
| Expressions.TwoExpressions | src/calculator.py:191-192 | two complete expressions side by side are InvalidExpression(2) |
| Expressions.OperatorTooMany | src/calculator.py:171-172 | an operator after one complete expression is InsufficientOperands |
| Expressions.TextTwoExpressions | src/calculator.py:191-192 | the same as text |
| Expressions.TextOperatorTooMany | src/calculator.py:171-172 | the same as text |
| Expressions.TextInvalidFirst | src/calculator.py:184-189 | a first word that is neither an operator nor a number is InvalidToken, whatever bracket-free tokens follow |
| Expressions.TextBracketError | src/calculator.py:164-165 | a bracket error of the token list is the evaluation's error |
| Scenarios.Addition | tests/test_calculator.py:28 | "3 4 +" is 7 |
| Scenarios.Subtraction | tests/test_calculator.py:29 | "5 3 -" is 2 |
| Scenarios.Multiplication | tests/test_calculator.py:30 | "2 3 *" is 6 |
| Scenarios.TrueDivision | tests/test_calculator.py:31 | "6 2 /" is the float 6 / 2 |
| Scenarios.Combined | tests/test_calculator.py:32 | "3 4 2 * +" is 11 |
| Scenarios.NestedOperations | tests/test_calculator.py:33 | "5 1 2 + 4 * + 3 -" is 14 |
| Scenarios.Power | tests/test_calculator.py:34 | "2 3 **" is 8 |
| Scenarios.FloorDivision | tests/test_calculator.py:35 | "7 3 //" is 2 |
| Scenarios.Modulo | tests/test_calculator.py:36 | "7 3 %" is 1 |
| Scenarios.Decimals | tests/test_calculator.py:37 | "10.5 2.5 +" is the float sum of the two literals |
| Scenarios.GroupFirst | tests/test_calculator.py:49 | "( 3 4 + ) 2 *" is 14 |
| Scenarios.GroupFirstTight | tests/test_calculator.py:49 | "(3 4 +) 2 *" has the tokens of "( 3 4 + ) 2 *" |
| Scenarios.GroupFirstWithoutSpaces | tests/test_calculator.py:49 | "(3 4 +) 2 *" is 14 |
| Scenarios.GroupInside | tests/test_calculator.py:50 | "3 ( 4 2 * ) +" is 11 |
| Scenarios.BracketsTwice | tests/test_calculator.py:51 | "( ( 3 4 + ) )" is 7 |
| Scenarios.GroupThenDivide | tests/test_calculator.py:52 | "( 3 4 + 5 * ) 2 /" is the float 35 / 2 |
| Scenarios.OuterNotClosed | tests/test_calculator.py:64 | "( ( 3 4 + ) 2 *" is UnmatchedParentheses |
| Scenarios.ExtraClose | tests/test_calculator.py:65 | "( 3 4 + ) ) 2 *" is UnmatchedParentheses |
| Scenarios.CloseBeforeOpen | tests/test_calculator.py:66 | ") 3 4 + (" is UnmatchedParentheses |
| Scenarios.OpenNeverClosed | tests/test_calculator.py:67 | "( 3 4 + 2 *" is UnmatchedParentheses |
| Scenarios.CloseWithoutOpen | tests/test_calculator.py:68 | "3 4 + ) 2 *" is UnmatchedParentheses |
| Scenarios.EmptyGroupWithoutSpaces | tests/test_calculator.py:85 | "() 3 4 +" is EmptyParentheses |
| Scenarios.EmptyGroup | tests/test_calculator.py:86 | "( ) 3 4 +" is EmptyParentheses |
| Scenarios.GroupMissingOperand | tests/test_calculator.py:87 | "( 4 + ) 2 *" is IncompleteInParentheses of ["4", "+"] |
| Scenarios.GroupOfTwoValues | tests/test_calculator.py:88 | "( 3 4 ) 2 *" is IncompleteInParentheses of ["3", "4"] |
| Scenarios.NestedIncompleteGroup | tests/test_calculator.py:89 | "( 3 ( 4 + ) ) 2 *" is IncompleteInParentheses of the inner group |
| Scenarios.NestedEmptyGroup | tests/test_calculator.py:90 | "( ( ) 3 4 + ) 2 *" is EmptyParentheses |
| Scenarios.DivideByZero | tests/test_calculator.py:107 | "3 0 /" is DivisionByZero |
| Scenarios.FloorDivideByZero | tests/test_calculator.py:108 | "3 0 //" is DivisionByZero |
| Scenarios.FloatFloorDivision | tests/test_calculator.py:109 | "3.5 2 //" is IntegerOperandsRequired |
| Scenarios.FloatModulo | tests/test_calculator.py:110 | "3.5 2 %" is IntegerOperandsRequired |
| Scenarios.OperatorWithoutOperands | tests/test_calculator.py:126 | "3 4 + +" is InsufficientOperands for "+" |
| Scenarios.TwoValuesLeft | tests/test_calculator.py:127 | "3 4" is InvalidExpression with two values left |
| Scenarios.UnknownWord | tests/test_calculator.py:128 | "abc 4 +" is InvalidToken "abc" |
| Scenarios.EmptyInput | tests/test_calculator.py:129-130 | "" and "   " are EmptyExpression |
| Scenarios.TwoDecimalPoints | tests/test_calculator.py:131 | "12.34.56 2 +" is InvalidToken "12.34.56" |
| Scenarios.LetterInNumber | tests/test_calculator.py:132 | "1a2 3 +" is InvalidToken "1a2" |
| Scenarios.AllOperations | tests/test_calculator.py:148 | "15 7 1 1 + - / 3 * 2 1 1 + + -" is the float (15 / 5) * 3 - 4 |
| Scenarios.PowerThenProduct | tests/test_calculator.py:149 | "2 3 ** 4 5 + *" is 72 |
| Scenarios.Sequential | tests/test_calculator.py:150 | "10 2 / 3 * 4 +" is the float (10 / 2) * 3 + 4 |
| Scenarios.ProductThenSum | tests/test_calculator.py:163 | "3 4 * 2 +" is 14 |

## Left out

- Float values: a float is a symbolic term, so results such as "6 2 /" are stated as `Flt(Computed("/", Int(6), Int(2)))`, not 3.0. The tests' `abs(result - expected) < 1e-10` comparison is not modelled.
- Operators.ApplyOperator: `+ - *` with a float operand, `**` with a float operand other than a zero base under a negative int exponent, and int `**` with a non-zero base and a negative exponent all succeed with a float term. An `OverflowError` from float arithmetic would be re-raised as a `ValueError` by the catch-all at src/calculator.py:182-183; that is not modelled, because it depends on IEEE-754 ranges. Nor is a complex result of a negative base under a fractional float exponent.
- Operators.ApplyOperator: a zero base raised to a negative float exponent (`0 ** -1.0`) is a `ZeroDivisionError` in Python, but the model succeeds there: deciding it needs the float exponent's sign, which the symbolic float terms do not carry.
- Operators.ApplyOperator: whether a float divisor, or a float base of `**`, is zero is the host's decision, so it is the parameter `floatIsZero`.
- Numbers.ParseNumber: the literal grammar is simplified. An int is an optional sign and decimal digits. A float is an optional sign and digits with exactly one '.'. Python's `int()` and `float()` also accept underscores, exponents, `inf`, `nan` and non-ASCII digits; those are not modelled.
- Numbers.ParseNumber: Python (3.11 on, and the 3.7-3.10 security releases) refuses to convert a decimal string of more than 4300 digits with `int()`, a `ValueError` that src/calculator.py:108-110 reports as InvalidToken. The model has no such limit: it reads int literals of any length, and `ParseIntRoundTrip` holds for ints of every size. The limit is a setting of the host interpreter, not of the calculator.
- Error messages: only error kinds are modelled. `constants.py`, which holds `SUPPORTED_OPERATORS` and `ERROR_MESSAGES`, is not part of this model. The operator set is the seven symbols of the operator table at src/calculator.py:128-136.
- The check `if not expr_inside` at src/calculator.py:40-41 is not modelled. It cannot fire: the check before it has already rejected an empty group.
- The re-raise of `InvalidToken` at src/calculator.py:188-189 repeats the error `_parse_number` already raises, so the model has one error there.
- Scenarios are stated over the text with single spaces around every token. Only "(3 4 +) 2 *" and "() 3 4 +" are also stated in the tests' tight form. `SpaceAfterParen` and `SpaceBeforeParen` prove that spaces next to a bracket never change the tokens.
- Calculator.StripParens: its own contract says only that no bracket is left and the list does not grow. That every other token is kept in order is proved in parts by `StripNoParens` and `StripAppend`.
- Calculator.Reduce: stack-height accounting is a loop invariant and the lemma `FoldHeight`, not part of the method's ensures.
- src/main.py, the interactive input/output loop, is not modelled.
