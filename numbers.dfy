/** `_parse_number`: a token with a '.' is read as a float, any other as an int. */
module Numbers {
  import opened Values

  predicate IsDigit(c: char) {
    '0' <= c <= '9'
  }

  predicate AllDigits(s: string) {
    forall i | 0 <= i < |s| :: IsDigit(s[i])
  }

  /** The token without one leading sign character. */
  function Unsigned(t: string): string {
    if |t| > 0 && (t[0] == '+' || t[0] == '-') then t[1..] else t
  }

  /** Integer literals: an optional sign, then one or more decimal digits. */
  predicate IsIntLiteral(t: string) {
    var u := Unsigned(t);
    |u| > 0 && AllDigits(u)
  }

  /** Float literals: an optional sign, then digits with exactly one '.', and at least one digit. */
  predicate IsFloatLiteral(t: string) {
    var u := Unsigned(t);
    |u| >= 2 && DotCount(u) == 1 && forall i | 0 <= i < |u| :: IsDigit(u[i]) || u[i] == '.'
  }

  function DotCount(s: string): nat {
    if s == [] then 0 else (if s[0] == '.' then 1 else 0) + DotCount(s[1..])
  }

  function DigitsValue(s: string): nat
    requires AllDigits(s)
  {
    if s == [] then 0 else 10 * DigitsValue(s[..|s| - 1]) + (s[|s| - 1] as int - '0' as int)
  }

  function IntLiteralValue(t: string): int
    requires IsIntLiteral(t)
  {
    var v: int := DigitsValue(Unsigned(t));
    if t[0] == '-' then -v else v
  }

  /** `_parse_number`: both failures become InvalidToken naming the token. */
  function ParseNumber(token: string): (r: Result<Value>)
    ensures r.Ok? <==> if '.' in token then IsFloatLiteral(token) else IsIntLiteral(token)
    ensures r.Ok? ==> (r.value.Flt? <==> '.' in token)
    ensures r.Ok? && r.value.Flt? ==> r.value.f == Literal(token)
    ensures r.Ok? && r.value.Int? ==> r.value.n == IntLiteralValue(token)
    ensures r.Err? ==> r.error == InvalidToken(token)
  {
    if '.' in token then
      if IsFloatLiteral(token) then Ok(Flt(Literal(token))) else Err(InvalidToken(token))
    else
      if IsIntLiteral(token) then Ok(Int(IntLiteralValue(token))) else Err(InvalidToken(token))
  }

  /** The decimal numeral of a natural number, most significant digit first. */
  function NatToString(n: nat): (s: string)
    ensures |s| > 0 && AllDigits(s)
  {
    if n < 10 then ['0' + n as char] else NatToString(n / 10) + ['0' + (n % 10) as char]
  }

  /** Python's `str(n)` for an int. */
  function IntToString(n: int): (s: string)
    ensures |s| > 0 && IsDigit(s[|s| - 1])
    ensures forall i | 0 <= i < |s| :: IsDigit(s[i]) || (i == 0 && s[i] == '-')
  {
    if n < 0 then "-" + NatToString(-n) else NatToString(n)
  }

  lemma {:induction false} NatToStringValue(n: nat)
    ensures DigitsValue(NatToString(n)) == n
  {
    var s := NatToString(n);
    if n >= 10 {
      NatToStringValue(n / 10);
      assert s[..|s| - 1] == NatToString(n / 10);
    }
  }

  /** Every int read back from its decimal numeral is the same int, with the int tag. */
  lemma {:induction false} ParseIntRoundTrip(n: int)
    ensures ParseNumber(IntToString(n)) == Ok(Int(n))
  {
    var s := IntToString(n);
    NatToStringValue(if n < 0 then -n else n);
    assert forall i | 0 <= i < |s| :: s[i] != '.';
    if n < 0 {
      assert Unsigned(s) == NatToString(-n);
    } else {
      assert Unsigned(s) == NatToString(n);
    }
  }

  lemma TwoPointsCount(t: string)
    requires t == "12.34.56"
    ensures DotCount(t) == 2
  {
    assert t[2] == '.' && t[5] == '.' && t[3] != '.' && t[4] != '.' && t[6] != '.' && t[7] != '.';
    assert t[8..] == [];
    forall k | 0 <= k < 8
      ensures DotCount(t[k..]) == (if t[k] == '.' then 1 else 0) + DotCount(t[k + 1..])
    {
      assert t[k..][1..] == t[k + 1..];
    }
    assert t[0..] == t;
  }

  /** Rejected number formats: two decimal points, and a letter inside digits. */
  lemma TwoPointsRejected()
    ensures ParseNumber("12.34.56") == Err(InvalidToken("12.34.56"))
  {
    var t := "12.34.56";
    TwoPointsCount(t);
    assert t[2] == '.' && Unsigned(t) == t;
    assert !IsFloatLiteral(t);
  }

  lemma LetterInsideDigitsRejected()
    ensures ParseNumber("1a2") == Err(InvalidToken("1a2"))
  {
    assert !IsDigit("1a2"[1]);
  }

  /** A word that does not start with a digit is no number. */
  lemma WordRejected()
    ensures ParseNumber("abc") == Err(InvalidToken("abc"))
  {
    assert !IsDigit("abc"[0]);
  }

  /** Tags follow the decimal point, not the value: "3.0" is a float. */
  lemma LiteralTags()
    ensures ParseNumber("-12") == Ok(Int(-12))
    ensures ParseNumber("3.0") == Ok(Flt(Literal("3.0")))
  {
    assert "3.0"[1] == '.';
    var t := "-12";
    assert forall i | 0 <= i < |t| :: t[i] != '.';
    assert Unsigned(t) == "12";
    assert "12"[..1] == "1";
    assert DigitsValue("12") == 12;
  }
}
