/** The first-stage parser of the repository root, src/utils.rs and src/lib.rs. It reads
    only `digits operator digits`, with no spaces, and panics on anything else; each panic
    is a precondition here. Its `take_while` is the crate's, `TakeWhile` of `Scanners`. */
module FirstStage {
  import opened Numbers
  import opened Scanners
  import Syntax

  /** `extract_operator`: the first character, which must be one of `+ - * /`. */
  function ExtractOperator(s: string): (r: (string, string))
    requires s != [] && Syntax.IsOpChar(s[0])
    ensures r.1 + r.0 == s && |r.1| == 1 && Syntax.IsOpChar(r.1[0])
  {
    (s[1..], s[..1])
  }

  /** `extract_whitespaces`: the maximal run of spaces; a newline is not consumed. */
  function ExtractSpaceRun(s: string): (r: (string, string))
    ensures r.1 + r.0 == s && All(IsSpace, r.1)
    ensures r.0 == [] || r.0[0] != ' '
  {
    TakeWhile(IsSpace, s)
  }

  /** `extract_digits`: the maximal run of digits, possibly empty. */
  function ExtractDigitRun(s: string): (r: (string, string))
    ensures r.1 + r.0 == s && AllDigits(r.1)
    ensures r.0 == [] || !IsAsciiDigit(r.0[0])
    ensures r.1 == [] <==> !StartsWithDigit(s)
  {
    TakeWhile(IsAsciiDigit, s)
  }

  /** `extract_ident`: like the crate's, except that a non-identifier leaves the input
      untouched and extracts nothing instead of failing. */
  function ExtractIdentOrNothing(s: string): (r: (string, string))
    ensures !StartsWithAlphabetic(s) ==> r == (s, "")
    ensures StartsWithAlphabetic(s) ==> r.1 + r.0 == s && IsIdent(r.1)
    ensures StartsWithAlphabetic(s) ==> r.0 == [] || !IsAsciiAlphanumeric(r.0[0])
  {
    if StartsWithAlphabetic(s) then TakeWhile(IsAsciiAlphanumeric, s) else (s, "")
  }

  /** `tag`: removes the literal `text`, which must begin `s`. */
  function TagOrPanic(text: string, s: string): (r: string)
    requires text <= s
    ensures text + r == s
  {
    s[|text|..]
  }

  /** `Number::new`: the digit prefix, which must be non-empty and fit an `i32`. */
  function ParseNumber(s: string): (r: (string, i32))
    requires StartsWithDigit(s) && DigitsValue(ExtractDigitRun(s).1) <= MaxI32
    ensures r.0 == ExtractDigitRun(s).0 && r.1 == DigitsValue(ExtractDigitRun(s).1)
    ensures |r.0| < |s|
  {
    var (rest, digits) := ExtractDigitRun(s);
    (rest, DigitsValue(digits))
  }

  /** `Operations::new`: the leading operator character, read as an operator. */
  function ParseOperation(s: string): (r: (string, Syntax.Op))
    requires s != [] && Syntax.IsOpChar(s[0])
    ensures r.0 == s[1..] && Syntax.OpChar(r.1) == s[0]
  {
    var (rest, op) := ExtractOperator(s);
    match op[0]
    case '+' => (rest, Syntax.Add)
    case '-' => (rest, Syntax.Sub)
    case '*' => (rest, Syntax.Mul)
    case '/' => (rest, Syntax.Div)
  }

  /** `Expression`: two numbers and the operator between them. */
  datatype Expression = Expression(lhs: i32, rhs: i32, op: Syntax.Op)

  /** A digit run that reads as an `i32`. */
  predicate StartsWithI32(s: string) {
    StartsWithDigit(s) && DigitsValue(ExtractDigitRun(s).1) <= MaxI32
  }

  /** The inputs on which `Expression::new` does not panic: an `i32` literal, an operator
      character, an `i32` literal, then anything. */
  predicate StartsWithExpression(s: string) {
    StartsWithI32(s) &&
    var afterLhs := ExtractDigitRun(s).0;
    afterLhs != [] && Syntax.IsOpChar(afterLhs[0]) && StartsWithI32(afterLhs[1..])
  }

  /** `Expression::new`: number, operator, number, and the unread rest. */
  function ParseExpression(s: string): (r: (string, Expression))
    requires StartsWithExpression(s)
    ensures |r.0| < |s|
  {
    var (s1, lhs) := ParseNumber(s);
    var (s2, op) := ParseOperation(s1);
    var (s3, rhs) := ParseNumber(s2);
    (s3, Expression(lhs, rhs, op))
  }

  /** Digits read back to the number they spell, and the digit run stops where they end. */
  lemma DigitRunOfLiteral(n: nat, rest: string)
    requires rest == [] || !IsAsciiDigit(rest[0])
    ensures ExtractDigitRun(DecimalString(n) + rest) == (rest, DecimalString(n))
  {
    var digits := DecimalString(n);
    assert All(IsAsciiDigit, digits) by {
      forall i | 0 <= i < |digits| ensures IsAsciiDigit(digits[i]) { }
    }
    TakeWhileUnique(IsAsciiDigit, digits + rest, digits, rest);
  }

  /** A non-negative `i32` written in decimal reads back as itself. */
  lemma NumberRoundTrip(n: i32, rest: string)
    requires n >= 0
    requires rest == [] || !IsAsciiDigit(rest[0])
    ensures StartsWithI32(DecimalString(n) + rest)
    ensures ParseNumber(DecimalString(n) + rest) == (rest, n)
  {
    var s := DecimalString(n) + rest;
    DigitRunOfLiteral(n, rest);
    assert s[0] == DecimalString(n)[0];
    assert ExtractDigitRun(s).1 == DecimalString(n);
    assert DigitsValue(DecimalString(n)) == n;
    assert InI32(n);
    assert DigitsValue(ExtractDigitRun(s).1) <= MaxI32;
  }

  /** An expression written out as `lhs op rhs` with decimal literals reads back as itself,
      leaving whatever follows a non-digit. */
  lemma ExpressionRoundTrip(lhs: i32, op: Syntax.Op, rhs: i32, rest: string)
    requires lhs >= 0 && rhs >= 0
    requires rest == [] || !IsAsciiDigit(rest[0])
    ensures var s := DecimalString(lhs) + [Syntax.OpChar(op)] + DecimalString(rhs) + rest;
      StartsWithExpression(s) && ParseExpression(s) == (rest, Expression(lhs, rhs, op))
  {
    var tail := DecimalString(rhs) + rest;
    var afterLhs := [Syntax.OpChar(op)] + tail;
    var s := DecimalString(lhs) + [Syntax.OpChar(op)] + DecimalString(rhs) + rest;
    Regroup(DecimalString(lhs), [Syntax.OpChar(op)], DecimalString(rhs), rest);
    ExpressionOfParts(lhs, op, rhs, rest, s, afterLhs, tail);
  }

  /** Four pieces of text joined from the left are the same text joined from the right. */
  lemma Regroup(a: string, b: string, c: string, d: string)
    ensures a + b + c + d == a + (b + (c + d))
  {
  }

  /** ExpressionRoundTrip with the text given as its three nested parts. */
  lemma ExpressionOfParts(lhs: i32, op: Syntax.Op, rhs: i32, rest: string, s: string, afterLhs: string, tail: string)
    requires lhs >= 0 && rhs >= 0
    requires rest == [] || !IsAsciiDigit(rest[0])
    requires tail == DecimalString(rhs) + rest && afterLhs == [Syntax.OpChar(op)] + tail
    requires s == DecimalString(lhs) + afterLhs
    ensures StartsWithExpression(s) && ParseExpression(s) == (rest, Expression(lhs, rhs, op))
  {
    OperationRoundTrip(op, tail);
    NumberRoundTrip(lhs, afterLhs);
    NumberRoundTrip(rhs, rest);
    DigitRunOfLiteral(lhs, afterLhs);
    assert StartsWithExpression(s);
    assert ParseNumber(s) == (afterLhs, lhs) && ParseNumber(tail) == (rest, rhs);
  }

  /** An operator character reads back as its operator, leaving what follows it. */
  lemma OperationRoundTrip(op: Syntax.Op, tail: string)
    ensures var s := [Syntax.OpChar(op)] + tail;
      Syntax.IsOpChar(s[0]) && !IsAsciiDigit(s[0]) && s[1..] == tail && ParseOperation(s) == (tail, op)
  {
    var s := [Syntax.OpChar(op)] + tail;
    assert s[1..] == tail;
    match op case Add => case Sub => case Mul => case Div =>
  }

  /** `Expression::new("1+2")`. */
  lemma ParseOnePlusTwo()
    ensures StartsWithExpression("1+2") && ParseExpression("1+2") == ("", Expression(1, 2, Syntax.Add))
  {
    assert DecimalString(1) == "1" && DecimalString(2) == "2";
    ExpressionRoundTrip(1, Syntax.Add, 2, "");
    assert "1" + ['+'] + "2" + "" == "1+2";
  }
}
