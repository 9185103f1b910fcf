/** Properties of the grammar of crates/moye that relate several parsers: the argument and
    statement loops are instances of the generic `sequence`, literals read back as
    themselves, and what each kind of input start leads to. */
module ParserFacts {
  import opened Results
  import opened Numbers
  import opened Scanners
  import opened Syntax
  import opened Parser

  /** The item parsers handed to `sequence` shorten their input whenever they succeed. */
  lemma ItemParsersShorten()
    ensures Shortening(ParseExpression) && Shortening(ParseStatement)
  {
    forall t | ParseExpression(t).Ok? ensures |ParseExpression(t).value.0| < |t| { }
    forall t | ParseStatement(t).Ok? ensures |ParseStatement(t).value.0| < |t| { }
  }

  /** The arguments of a call are `sequence(Expression::new, spaces)`. */
  lemma {:induction false} ExpressionSequenceIsSequence(s: string)
    decreases |s|
    ensures ItemParsersShortenAndSeparatorsNarrow()
    ensures ParseExpressionSequence(s) == Sequence(ParseExpression, ExtractSpaces, s)
  {
    ItemParsersShorten();
    WhitespaceScannersNarrow();
    match ParseExpression(s)
    case Ok((afterItem, item)) =>
      ExpressionSequenceIsSequence(ExtractSpaces(afterItem).0);
    case Err(_) =>
    case Panic(_) =>
    case Exhausted =>
  }

  /** The body of a block is `sequence(Statement::new, extract_whitespaces)`. */
  lemma {:induction false} StatementSequenceIsSequence(s: string)
    decreases |s|
    ensures ItemParsersShortenAndSeparatorsNarrow()
    ensures ParseStatementSequence(s) == Sequence(ParseStatement, ExtractWhitespaces, s)
  {
    ItemParsersShorten();
    WhitespaceScannersNarrow();
    match ParseStatement(s)
    case Ok((afterItem, item)) =>
      StatementSequenceIsSequence(ExtractWhitespaces(afterItem).0);
    case Err(_) =>
    case Panic(_) =>
    case Exhausted =>
  }

  /** What `Sequence` needs of the two grammar loops. */
  ghost predicate ItemParsersShortenAndSeparatorsNarrow() {
    Shortening(ParseExpression) && Shortening(ParseStatement)
    && NotLengthening(ExtractSpaces) && NotLengthening(ExtractWhitespaces)
  }

  /** A non-negative `i32` written in decimal reads back as itself, leaving what follows. */
  lemma NumberLiteral(n: i32, rest: string)
    requires n >= 0
    requires rest == [] || !IsAsciiDigit(rest[0])
    ensures ParseNumber(DecimalString(n) + rest) == Ok((rest, n))
  {
    var digits := DecimalString(n);
    assert All(IsAsciiDigit, digits) by {
      forall i | 0 <= i < |digits| ensures IsAsciiDigit(digits[i]) { }
    }
    TakeWhileUnique(IsAsciiDigit, digits + rest, digits, rest);
    assert (digits + rest)[0] == digits[0];
    assert InI32(n);
  }

  /** A decimal literal is the first operand that `Expression::new_non_operation` reads. */
  lemma NonOperationOfNumber(n: i32, rest: string)
    requires n >= 0
    requires rest == [] || !IsAsciiDigit(rest[0])
    ensures ParseNonOperation(DecimalString(n) + rest) == Ok((rest, Expression.Number(n)))
  {
    NumberLiteral(n, rest);
  }

  /** A digit run whose value is above the `i32` range makes `Number::new` panic. */
  lemma NumberLiteralOverflow(digits: string, rest: string)
    requires digits != [] && AllDigits(digits) && DigitsValue(digits) > MaxI32
    requires rest == [] || !IsAsciiDigit(rest[0])
    ensures ParseNumber(digits + rest) == Panic(IntegerOverflow)
  {
    assert All(IsAsciiDigit, digits) by {
      forall i | 0 <= i < |digits| ensures IsAsciiDigit(digits[i]) { }
    }
    TakeWhileUnique(IsAsciiDigit, digits + rest, digits, rest);
    assert (digits + rest)[0] == digits[0];
  }

  /** A run of spaces and newlines up to a character of another kind is what
      `extract_whitespaces` takes. */
  lemma WhitespaceRun(ws: string, rest: string)
    requires All(IsWhitespace, ws)
    requires rest == [] || !IsWhitespace(rest[0])
    ensures ExtractWhitespaces(ws + rest) == (rest, ws)
  {
    TakeWhileUnique(IsWhitespace, ws + rest, ws, rest);
  }

  /** Input that starts with none of a digit, a letter or `{` (or is empty) is neither an
      expression nor a statement, and every parser reports an ordinary error on it. */
  lemma NothingToParse(s: string)
    requires s == [] || !(IsAsciiDigit(s[0]) || IsAsciiAlphabetic(s[0]) || s[0] == '{')
    ensures ParseNonOperation(s).Err? && ParseExpression(s).Err? && ParseStatement(s).Err?
  {
  }

  /** `Expression::new` tries an operation first: once the first operand is read, an
      operator completing it wins; an ordinary error in the rest of the operation gives back
      the operand alone; anything else is passed on. */
  lemma OperationFirst(s: string)
    ensures ParseNonOperation(s).Err? ==> ParseExpression(s) == ParseNonOperation(s)
    ensures ParseNonOperation(s).Ok? ==>
      var (afterLhs, lhs) := ParseNonOperation(s).value;
      var tail := ParseOperationTail(lhs, ExtractWhitespaces(afterLhs).0);
      ParseExpression(s) == if tail.Err? then ParseNonOperation(s) else tail
  {
  }

  /** A decimal literal not followed, after whitespace, by an operator character is a
      number expression. */
  lemma NumberExpression(n: i32, rest: string)
    requires n >= 0
    requires rest == [] || !IsAsciiDigit(rest[0])
    requires var t := ExtractWhitespaces(rest).0; t == [] || !IsOpChar(t[0])
    ensures ParseNonOperation(DecimalString(n) + rest) == Ok((rest, Expression.Number(n)))
    ensures ParseExpression(DecimalString(n) + rest) == Ok((rest, Expression.Number(n)))
  {
    NonOperationOfNumber(n, rest);
    OperationFirst(DecimalString(n) + rest);
  }

  /** The shape of an operation: once a first operand is read, optional whitespace, an
      operator character, optional whitespace and a second operand make `Expression::new`
      return the operation of the two. */
  lemma OperationOf(s: string, lhs: Expression, ws1: string, op: Op, ws2: string, right: string,
                    rhs: Expression, rest: string)
    requires ParseNonOperation(s) == Ok((ws1 + ([OpChar(op)] + (ws2 + right)), lhs))
    requires All(IsWhitespace, ws1) && All(IsWhitespace, ws2)
    requires right == [] || !IsWhitespace(right[0])
    requires ParseNonOperation(right) == Ok((rest, rhs))
    ensures ParseExpression(s) == Ok((rest, Operation(lhs, rhs, op)))
  {
    var c := OpChar(op);
    assert !IsWhitespace(c) by { match op case Add => case Sub => case Mul => case Div => }
    var fromOp := [c] + (ws2 + right);
    WhitespaceRun(ws1, fromOp);
    ParseOpRoundTrip(op, ws2 + right);
    WhitespaceRun(ws2, right);
    OperationFirst(s);
  }

  /** `lhs op rhs` with decimal literals and optional whitespace around the operator reads
      back as that operation. */
  lemma OperationOfNumbers(lhs: i32, ws1: string, op: Op, ws2: string, rhs: i32, rest: string)
    requires lhs >= 0 && rhs >= 0
    requires All(IsWhitespace, ws1) && All(IsWhitespace, ws2)
    requires rest == [] || !IsAsciiDigit(rest[0])
    ensures var s := DecimalString(lhs) + (ws1 + ([OpChar(op)] + (ws2 + (DecimalString(rhs) + rest))));
      ParseExpression(s) == Ok((rest, Operation(Expression.Number(lhs), Expression.Number(rhs), op)))
  {
    var c := OpChar(op);
    assert !IsAsciiDigit(c) by { match op case Add => case Sub => case Mul => case Div => }
    var right := DecimalString(rhs) + rest;
    var afterLhs := ws1 + ([c] + (ws2 + right));
    assert afterLhs[0] == if ws1 != [] then ws1[0] else c;
    NonOperationOfNumber(lhs, afterLhs);
    assert right[0] == DecimalString(rhs)[0];
    assert !IsWhitespace(right[0]);
    NonOperationOfNumber(rhs, rest);
    OperationOf(DecimalString(lhs) + afterLhs, Expression.Number(lhs), ws1, op, ws2, right,
                Expression.Number(rhs), rest);
  }

  /** `lhs op rhs` with decimal literals and no whitespace is also a whole statement: an
      expression statement, since a digit cannot begin `let`. */
  lemma OperationStatementOfNumbers(lhs: i32, op: Op, rhs: i32, rest: string)
    requires lhs >= 0 && rhs >= 0
    requires rest == [] || !IsAsciiDigit(rest[0])
    ensures ParseStatement(DecimalString(lhs) + ([OpChar(op)] + (DecimalString(rhs) + rest)))
      == Ok((rest, ExprStatement(Operation(Expression.Number(lhs), Expression.Number(rhs), op))))
  {
    var right := DecimalString(rhs) + rest;
    var s := DecimalString(lhs) + ([OpChar(op)] + right);
    OperationOfNumbers(lhs, [], op, [], rhs, rest);
    assert [] + right == right;
    assert [] + ([OpChar(op)] + right) == [OpChar(op)] + right;
    assert s[0] == DecimalString(lhs)[0];
    assert ParseBindingDef(s).Err?;
    BindingDefFirst(s);
  }

  /** A name not directly followed by a letter or digit, and after which the spaces lead to
      nothing that could start an argument (a digit, a letter or `{`), is not a call: read
      as one it has no arguments, which `non_empty_sequence` refuses, so it is a binding
      usage. */
  lemma NonOperationOfName(name: string, rest: string)
    requires IsIdent(name)
    requires rest == [] || !IsAsciiAlphanumeric(rest[0])
    requires var t := ExtractSpaces(rest).0;
      t == [] || !(IsAsciiDigit(t[0]) || IsAsciiAlphabetic(t[0]) || t[0] == '{')
    ensures ParseFuncCall(name + rest) == Err(EmptySequenceMessage)
    ensures ParseNonOperation(name + rest) == Ok((rest, BindingUsage(name)))
  {
    TakeWhileUnique(IsAsciiAlphanumeric, name + rest, name, rest);
    assert (name + rest)[0] == name[0];
    var t := ExtractSpaces(rest).0;
    NothingToParse(t);
    assert ParseExpressionSequence(t) == Ok((t, []));
    assert ParseBindingUsage(name + rest) == Ok((rest, BindingUsage(name)));
  }

  /** A name followed by no argument and no operator is a binding usage. */
  lemma NameWithoutArguments(name: string, rest: string)
    requires IsIdent(name)
    requires rest == [] || !IsAsciiAlphanumeric(rest[0])
    requires var t := ExtractSpaces(rest).0;
      t == [] || !(IsAsciiDigit(t[0]) || IsAsciiAlphabetic(t[0]) || t[0] == '{')
    requires var t := ExtractWhitespaces(rest).0; t == [] || !IsOpChar(t[0])
    ensures ParseExpression(name + rest) == Ok((rest, BindingUsage(name)))
  {
    NonOperationOfName(name, rest);
    OperationFirst(name + rest);
  }

  /** `Statement::new` tries a binding definition first and falls back to an expression
      only on an ordinary error. */
  lemma BindingDefFirst(s: string)
    ensures !ParseBindingDef(s).Err? ==> ParseStatement(s) == ParseBindingDef(s)
    ensures ParseBindingDef(s).Err? ==> ParseStatement(s) == WithExprStatement(ParseExpression(s))
  {
  }

  /** `let`, whitespace, a name, optional whitespace, `=`, optional whitespace, then an
      expression: a binding definition of that name to that expression, or the
      expression's failure. */
  lemma BindingDefOf(ws1: string, name: string, ws2: string, ws3: string, value: string)
    requires ws1 != [] && All(IsWhitespace, ws1)
    requires IsIdent(name)
    requires All(IsWhitespace, ws2) && All(IsWhitespace, ws3)
    requires value == [] || !IsWhitespace(value[0])
    ensures var s := "let" + (ws1 + (name + (ws2 + ("=" + (ws3 + value)))));
      var e := ParseExpression(value);
      ParseBindingDef(s) == if e.Ok? then Ok((e.value.0, BindingDef(name, e.value.1))) else e.PropagateFailure()
  {
    var afterEq := ws3 + value;
    var fromEq := "=" + afterEq;
    var afterName := ws2 + fromEq;
    var afterLet := ws1 + (name + afterName);
    var s := "let" + afterLet;
    TagRemovesExactlyTheLiteral("let", afterLet);
    assert Tag("let", s) == Ok(afterLet);
    assert (name + afterName)[0] == name[0];
    WhitespaceRun(ws1, name + afterName);
    assert ExtractWhitespacesWithError(afterLet) == Ok((name + afterName, ws1));
    assert afterName[0] == if ws2 != [] then ws2[0] else '=';
    TakeWhileUnique(IsAsciiAlphanumeric, name + afterName, name, afterName);
    assert ExtractIdent(name + afterName) == Ok((afterName, name));
    WhitespaceRun(ws2, fromEq);
    TagRemovesExactlyTheLiteral("=", afterEq);
    assert Tag("=", ExtractWhitespaces(afterName).0) == Ok(afterEq);
    WhitespaceRun(ws3, value);
    assert ExtractWhitespaces(afterEq).0 == value;
  }

  /** `let name = value`, with single spaces, where the value parses as an expression:
      the binding definition of the name to that expression, as a whole statement. */
  lemma BindingStatementOf(name: string, value: string, rest: string, e: Expression)
    requires IsIdent(name)
    requires value != [] && !IsWhitespace(value[0])
    requires ParseExpression(value) == Ok((rest, e))
    ensures ParseStatement("let" + (" " + (name + (" " + ("=" + (" " + value))))))
      == Ok((rest, BindingDef(name, e)))
  {
    assert All(IsWhitespace, " ");
    BindingDefOf(" ", name, " ", " ", value);
    BindingDefFirst("let" + (" " + (name + (" " + ("=" + (" " + value))))));
  }

  /** A statement sequence keeps its statements in source order: the first statement, then
      the sequence read after the whitespace that follows it. */
  lemma StatementSequenceStep(s: string)
    requires ParseStatement(s).Ok?
    ensures ParseStatementSequence(s)
      == PrependItems([ParseStatement(s).value.1], ParseStatementSequence(ExtractWhitespaces(ParseStatement(s).value.0).0))
  {
  }

  /** A statement sequence whose first statement is followed, after whitespace, by input
      that is not a statement holds that statement alone. */
  lemma OneStatementSequence(s: string)
    requires ParseStatement(s).Ok?
    requires ParseStatement(ExtractWhitespaces(ParseStatement(s).value.0).0).Err?
    ensures ParseStatementSequence(s)
      == Ok((ExtractWhitespaces(ParseStatement(s).value.0).0, [ParseStatement(s).value.1]))
  {
    var next := ExtractWhitespaces(ParseStatement(s).value.0).0;
    assert ParseStatementSequence(next) == Ok((next, []));
    assert [ParseStatement(s).value.1] + [] == [ParseStatement(s).value.1];
  }

  /** `{`, whitespace, a statement sequence, whitespace and `}` make a block of those
      statements. */
  lemma BlockOf(ws1: string, body: string, ws2: string, rest: string)
    requires All(IsWhitespace, ws1) && All(IsWhitespace, ws2)
    requires body == [] || !IsWhitespace(body[0])
    requires ParseStatementSequence(body).Ok?
    requires ParseStatementSequence(body).value.0 == ws2 + ("}" + rest)
    ensures ParseBlock("{" + (ws1 + body)) == Ok((rest, Block(ParseStatementSequence(body).value.1)))
  {
    TagRemovesExactlyTheLiteral("{", ws1 + body);
    WhitespaceRun(ws1, body);
    WhitespaceRun(ws2, "}" + rest);
    TagRemovesExactlyTheLiteral("}", rest);
  }

  /** Input starting with `{` can only be a block among the non-operations. */
  lemma BlockIsNonOperation(s: string)
    requires s != [] && s[0] == '{'
    ensures ParseNonOperation(s) == ParseBlock(s)
  {
    assert ParseNumberExpr(s).Err? && ParseBindingUsage(s).Err?;
    assert ExtractIdent(s).Err?;
    assert ParseFuncCall(s).Err?;
  }

  /** Non-negative numbers written in decimal and separated by single spaces. */
  function SpacedNumbers(ns: seq<i32>): (r: string)
    requires forall i :: 0 <= i < |ns| ==> ns[i] >= 0
    ensures ns != [] ==> r != [] && IsAsciiDigit(r[0])
  {
    if ns == [] then ""
    else if |ns| == 1 then DecimalString(ns[0])
    else DecimalString(ns[0]) + (" " + SpacedNumbers(ns[1..]))
  }

  /** The number expressions of `ns`, in order. */
  function NumberExpressions(ns: seq<i32>): (r: seq<Expression>)
    ensures |r| == |ns| && forall i :: 0 <= i < |ns| ==> r[i] == Expression.Number(ns[i])
  {
    if ns == [] then [] else [Expression.Number(ns[0])] + NumberExpressions(ns[1..])
  }

  /** Space-separated decimal literals are read as that many number arguments. */
  lemma {:induction false} NumberArguments(ns: seq<i32>)
    requires forall i :: 0 <= i < |ns| ==> ns[i] >= 0
    ensures ParseExpressionSequence(SpacedNumbers(ns)) == Ok(([], NumberExpressions(ns)))
  {
    if ns == [] {
      NothingToParse([]);
    } else if |ns| == 1 {
      NumberExpression(ns[0], []);
      assert DecimalString(ns[0]) + [] == DecimalString(ns[0]);
      LastArgument();
    } else {
      NumberArguments(ns[1..]);
      NumberThenArguments(ns[0], SpacedNumbers(ns[1..]));
    }
  }

  /** Nothing is left after the last argument. */
  lemma LastArgument()
    ensures ExtractSpaces([]) == ([], [])
    ensures ParseExpressionSequence([]) == Ok(([], []))
  {
    NothingToParse([]);
    TakeWhileUnique(IsSpace, [], [], []);
  }

  /** One number argument, a space, and further arguments that start with a digit. */
  lemma NumberThenArguments(n: i32, tail: string)
    requires n >= 0
    requires tail != [] && IsAsciiDigit(tail[0])
    ensures ParseExpressionSequence(DecimalString(n) + (" " + tail))
      == PrependItems([Expression.Number(n)], ParseExpressionSequence(tail))
  {
    var rest := " " + tail;
    assert !IsOpChar(tail[0]) && !IsWhitespace(tail[0]);
    WhitespaceRun(" ", tail);
    NumberExpression(n, rest);
    TakeWhileUnique(IsSpace, rest, " ", tail);
  }

  /** A name, a space, and space-separated decimal literals: a call of that name with those
      numbers as arguments, both as `FuncCall::new` and as `Expression::new` reads it. */
  lemma CallOfNumbers(name: string, ns: seq<i32>)
    requires IsIdent(name)
    requires |ns| >= 1 && forall i :: 0 <= i < |ns| ==> ns[i] >= 0
    ensures ParseFuncCall(name + (" " + SpacedNumbers(ns))) == Ok(([], FuncCall(name, NumberExpressions(ns))))
    ensures ParseExpression(name + (" " + SpacedNumbers(ns))) == Ok(([], FuncCall(name, NumberExpressions(ns))))
  {
    var args := SpacedNumbers(ns);
    var s := name + (" " + args);
    assert s[0] == name[0];
    TakeWhileUnique(IsAsciiAlphanumeric, s, name, " " + args);
    TakeWhileUnique(IsSpace, " " + args, " ", args);
    NumberArguments(ns);
    assert ParseFuncCall(s) == Ok(([], FuncCall(name, NumberExpressions(ns))));
    assert ParseNumberExpr(s).Err?;
    assert ParseNonOperation(s) == ParseFuncCall(s);
    OperationFirst(s);
  }

  /** A name, a run of spaces, and text whose argument list is not empty: a call of that
      name with those arguments, whatever the arguments are and however many spaces
      separate them. */
  lemma CallOf(name: string, ws: string, args: string, rest: string, params: seq<Expression>)
    requires IsIdent(name) && All(IsSpace, ws)
    requires ws + args == [] || !IsAsciiAlphanumeric((ws + args)[0])
    requires args == [] || args[0] != ' '
    requires ParseExpressionSequence(args) == Ok((rest, params)) && params != []
    ensures ParseFuncCall(name + (ws + args)) == Ok((rest, FuncCall(name, params)))
  {
    var s := name + (ws + args);
    assert s[0] == name[0];
    TakeWhileUnique(IsAsciiAlphanumeric, s, name, ws + args);
    assert ExtractIdent(s) == Ok((ws + args, name));
    TakeWhileUnique(IsSpace, ws + args, ws, args);
    assert ExtractSpaces(ws + args).0 == args;
  }
}
