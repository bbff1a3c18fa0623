/** Binary operator application with Python's semantics on ints and opaque floats. */
module Operators {
  import opened Values

  /** q is Python's `a // b`: the floor of the exact quotient. */
  predicate IsFloorQuotient(a: int, b: int, q: int) {
    if b > 0 then b * q <= a < b * q + b else b * q + b < a <= b * q
  }

  /** Python's `//` on ints (Dafny's `/` is Euclidean, so negative divisors are rewritten). */
  function FloorDiv(a: int, b: int): (q: int)
    requires b != 0
    ensures IsFloorQuotient(a, b, q)
  {
    if b > 0 then a / b else (-a) / (-b)
  }

  /** Python's `%` on ints: the remainder takes the sign of the divisor. */
  function FloorMod(a: int, b: int): (m: int)
    requires b != 0
    ensures a == b * FloorDiv(a, b) + m
    ensures b > 0 ==> 0 <= m < b
    ensures b < 0 ==> b < m <= 0
  {
    a - b * FloorDiv(a, b)
  }

  /** Python's `**` on an int base and a non-negative int exponent. */
  function Pow(a: int, e: nat): int {
    if e == 0 then 1 else a * Pow(a, e - 1)
  }

  /** Python's `v == 0`. Whether a float equals zero is decided by the host's
      float arithmetic, which the model takes as the parameter `floatIsZero`. */
  predicate IsZero(v: Value, floatIsZero: FloatTerm -> bool) {
    match v
    case Int(n) => n == 0
    case Flt(f) => floatIsZero(f)
  }

  /** The table of operator functions: what each operator computes once the guards have passed. */
  function Arith(op: string, a: Value, b: Value, floatIsZero: FloatTerm -> bool): Result<Value>
    requires IsOperator(op)
    requires op == "//" || op == "%" ==> a.Int? && b.Int?
    requires op == "//" ==> b.n != 0
  {
    if op == "/" then Ok(Flt(Computed(op, a, b)))
    else if op == "//" then Ok(Int(FloorDiv(a.n, b.n)))
    else if op == "%" then
      (if b.n == 0 then Err(HostZeroDivision) else Ok(Int(FloorMod(a.n, b.n))))
    // a zero base raised to a negative int power is the host's ZeroDivisionError, int or float
    else if op == "**" && IsZero(a, floatIsZero) && b.Int? && b.n < 0 then Err(HostZeroDivision)
    else if !(a.Int? && b.Int?) then Ok(Flt(Computed(op, a, b)))
    else if op == "+" then Ok(Int(a.n + b.n))
    else if op == "-" then Ok(Int(a.n - b.n))
    else if op == "*" then Ok(Int(a.n * b.n))
    else if b.n >= 0 then Ok(Int(Pow(a.n, b.n)))
    else Ok(Flt(Computed(op, a, b)))
  }

  /** `_apply_operator`: the integer-type check, then the zero guard, then the table. */
  function ApplyOperator(op: string, a: Value, b: Value, floatIsZero: FloatTerm -> bool): (r: Result<Value>)
    requires IsOperator(op)
    // the type check comes first: `//` and `%` refuse any float operand, zero or not
    ensures (op == "//" || op == "%") && !(a.Int? && b.Int?) ==> r == Err(IntegerOperandsRequired)
    // the zero guard of `/` and `//`, for an int or a float divisor
    ensures op == "/" && IsZero(b, floatIsZero) ==> r == Err(DivisionByZero)
    ensures op == "//" && a.Int? && b.Int? && b.n == 0 ==> r == Err(DivisionByZero)
    // the host's own ZeroDivisionError, from `%` by zero and from a zero base (int or float)
    // raised to a negative int power
    ensures r == Err(HostZeroDivision) <==>
              (op == "%" && a.Int? && b == Int(0)) ||
              (op == "**" && IsZero(a, floatIsZero) && b.Int? && b.n < 0)
    // no other failure is modelled
    ensures r.Err? ==> r.error in {IntegerOperandsRequired, DivisionByZero, HostZeroDivision}
    ensures op == "/" ==> (r.Ok? <==> !IsZero(b, floatIsZero))
    ensures op in {"+", "-", "*"} && (a.Flt? || b.Flt?) ==> r.Ok?
    ensures op == "**" && (a.Flt? || b.Flt?) ==>
              (r.Ok? <==> !(IsZero(a, floatIsZero) && b.Int? && b.n < 0))
    // true division always yields a float; a float operand makes the result a float
    ensures r.Ok? && (op == "/" || a.Flt? || b.Flt?) ==> r.value.Flt?
    // exact integer semantics
    ensures a.Int? && b.Int? ==>
              (op == "+" ==> r == Ok(Int(a.n + b.n))) &&
              (op == "-" ==> r == Ok(Int(a.n - b.n))) &&
              (op == "*" ==> r == Ok(Int(a.n * b.n))) &&
              (op == "**" && b.n >= 0 ==> r == Ok(Int(Pow(a.n, b.n)))) &&
              (op == "**" && b.n < 0 && a.n != 0 ==> r.Ok? && r.value.Flt?)
    ensures op == "//" && a.Int? && b.Int? && b.n != 0 ==>
              r.Ok? && r.value.Int? && IsFloorQuotient(a.n, b.n, r.value.n)
    ensures op == "%" && a.Int? && b.Int? && b.n != 0 ==>
              r.Ok? && r.value.Int? && (a.n - r.value.n) == b.n * FloorDiv(a.n, b.n) &&
              (b.n > 0 ==> 0 <= r.value.n < b.n) && (b.n < 0 ==> b.n < r.value.n <= 0)
  {
    if (op == "//" || op == "%") && !(a.Int? && b.Int?) then Err(IntegerOperandsRequired)
    else if (op == "/" || op == "//") && IsZero(b, floatIsZero) then Err(DivisionByZero)
    else Arith(op, a, b, floatIsZero)
  }

  /** Floor division agrees with Python on the signs Dafny's Euclidean division treats differently. */
  lemma FloorDivExamples()
    ensures FloorDiv(7, 3) == 2 && FloorMod(7, 3) == 1
    ensures FloorDiv(-7, 2) == -4 && FloorMod(-7, 2) == 1
    ensures FloorDiv(7, -3) == -3 && FloorMod(7, -3) == -2
    ensures FloorDiv(-7, -3) == 2 && FloorMod(-7, -3) == -1
  {
  }

  /** The floor quotient is unique, so IsFloorQuotient pins down Python's `//` completely. */
  lemma {:induction false} FloorQuotientUnique(a: int, b: int, q1: int, q2: int)
    requires b != 0 && IsFloorQuotient(a, b, q1) && IsFloorQuotient(a, b, q2)
    ensures q1 == q2
  {
    if q1 < q2 {
      MulMonotone(b, q1 + 1, q2);
    } else if q2 < q1 {
      MulMonotone(b, q2 + 1, q1);
    }
  }

  lemma {:induction false} MulMonotone(b: int, x: int, y: int)
    requires x <= y
    ensures b > 0 ==> b * x <= b * y
    ensures b < 0 ==> b * x >= b * y
  {
    if b > 0 {
      assert b * y == b * x + b * (y - x);
    } else if b < 0 {
      assert b * y == b * x + b * (y - x);
    }
  }
}
