/** The values, errors and operator symbols shared by every stage of the RPN evaluator. */
module Values {

  /** A number on the evaluation stack. The int/float tag is a real discriminant:
      a float that happens to be integral (3.0) stays a float. */
  datatype Value = Int(n: int) | Flt(f: FloatTerm)

  /** A float is kept opaque: the model records only where it came from, a literal
      token or the operation that produced it, never its IEEE-754 value. */
  datatype FloatTerm = Literal(text: string) | Computed(op: string, a: Value, b: Value)

  /** The error kinds an evaluation can end with, carrying the values the
      calculator interpolates into its messages. */
  datatype Error =
    | EmptyExpression
    | UnmatchedParentheses
    | EmptyParentheses
    | IncompleteInParentheses(group: seq<string>)
    | InvalidToken(token: string)
    | IntegerOperandsRequired
    | DivisionByZero
      /** ZeroDivisionError raised by the host's own `%` or `**`, not by the calculator's guard. */
    | HostZeroDivision
    | InsufficientOperands(op: string)
    | InvalidExpression(remaining: nat)

  datatype Option<T> = None | Some(value: T)

  datatype Result<T> = Ok(value: T) | Err(error: Error)

  /** The outcome of a check that yields no value. */
  datatype Check = Pass | Fail(error: Error)

  /** The seven operator symbols the calculator dispatches on. */
  const Operators: set<string> := {"+", "-", "*", "/", "//", "%", "**"}

  predicate IsOperator(t: string) {
    t in Operators
  }

  /** No operator symbol is longer than two characters. */
  lemma {:induction false} LongWordNotOperator(t: string)
    requires |t| > 2
    ensures !IsOperator(t)
  {
  }

  predicate IsParen(t: string) {
    t == "(" || t == ")"
  }
}
