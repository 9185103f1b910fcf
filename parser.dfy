/** The recursive-descent grammar of crates/moye: numbers and operators (expr.rs), blocks
    (expr/block.rs), calls (expr/func_call.rs), binding usages and definitions, and statements
    (statements.rs). The parsers call each other, so they live in one module. Each is measured
    by the length of its input and, for calls on the same input, by its place in the order
    statement sequence > statement/expression sequence > statement > binding definition and
    expression > operation > non-operation > call and block. */
module Parser {
  import opened Results
  import opened Numbers
  import opened Scanners
  import opened Syntax

  /** The panic of `number.parse().unwrap()` on a digit run above the `i32` range. */
  const IntegerOverflow := "called `Result::unwrap()` on an `Err` value: ParseIntError { kind: PosOverflow }"

  /** `Number::new`: the maximal run of digits, read as an `i32`. */
  function ParseNumber(s: string): (r: Result<(string, i32)>)
    ensures r.Err? <==> !StartsWithDigit(s)
    ensures r.Err? ==> r.msg == "expected digits"
    ensures r.Panic? ==> r.reason == IntegerOverflow
    ensures !r.Exhausted?
    ensures r.Ok? || r.Panic? ==> var (rest, digits) := ExtractDigits(s).value;
      (r.Ok? <==> DigitsValue(digits) <= MaxI32)
    ensures r.Ok? ==> |r.value.0| < |s| && (r.value.0 == [] || !IsAsciiDigit(r.value.0[0]))
    ensures r.Ok? ==> AllDigits(s[..|s| - |r.value.0|]) && r.value.1 == DigitsValue(s[..|s| - |r.value.0|])
  {
    var split :- ExtractDigits(s);
    assert s[..|s| - |split.0|] == split.1 by { assert s == split.1 + split.0; }
    var value := DigitsValue(split.1);
    if value <= MaxI32 then Ok((split.0, value)) else Panic(IntegerOverflow)
  }

  function WithOp(r: Result<string>, op: Op): Result<(string, Op)> {
    if r.Ok? then Ok((r.value, op)) else r.PropagateFailure()
  }

  /** `Operations::new`: one of `+ - * /`, tried in that order; a failure reports the last
      alternative tried. */
  function ParseOp(s: string): (r: Result<(string, Op)>)
    ensures r.Ok? || r.Err?
    ensures r.Ok? <==> s != [] && IsOpChar(s[0])
    ensures r.Ok? ==> r.value.0 == s[1..] && OpChar(r.value.1) == s[0]
    ensures r.Err? ==> r.msg == "expected /"
  {
    if s == [] then Err("expected /")
    else if s[0] == '+' then Ok((s[1..], Add))
    else if s[0] == '-' then Ok((s[1..], Sub))
    else if s[0] == '*' then Ok((s[1..], Mul))
    else if s[0] == '/' then Ok((s[1..], Div))
    else Err("expected /")
  }

  /** ParseOp is the source's chain of four tags joined by `or_else`. */
  lemma ParseOpIsTagChain(s: string)
    ensures ParseOp(s) == OrElse(OrElse(OrElse(WithOp(Tag("+", s), Add), WithOp(Tag("-", s), Sub)),
                                        WithOp(Tag("*", s), Mul)),
                                 WithOp(Tag("/", s), Div))
  {
  }

  /** Every operator reads back from its own character. */
  lemma ParseOpRoundTrip(op: Op, rest: string)
    ensures ParseOp([OpChar(op)] + rest) == Ok((rest, op))
  {
    var r := ParseOp([OpChar(op)] + rest);
    assert ([OpChar(op)] + rest)[1..] == rest;
    match op
    case Add =>
    case Sub =>
    case Mul =>
    case Div =>
  }

  /** `Expression::new`: an operation, or else, from the same input, a non-operation. */
  function ParseExpression(s: string): (r: Result<(string, Expression)>)
    decreases |s|, 5
    ensures r.Ok? ==> |r.value.0| < |s| && UnchainedExpr(r.value.1)
  {
    OrElse(ParseOperationExpr(s), ParseNonOperation(s))
  }

  /** `Expression::new_non_operation`: number, call, binding usage, block; the first success wins. */
  function ParseNonOperation(s: string): (r: Result<(string, Expression)>)
    decreases |s|, 3
    ensures r.Ok? ==> |r.value.0| < |s| && !r.value.1.Operation? && UnchainedExpr(r.value.1)
  {
    OrElse(OrElse(OrElse(ParseNumberExpr(s), ParseFuncCall(s)), ParseBindingUsage(s)), ParseBlock(s))
  }

  /** `Expression::new_operation`: non-operation, spaces, operator, spaces, non-operation. */
  function ParseOperationExpr(s: string): (r: Result<(string, Expression)>)
    decreases |s|, 4
    ensures r.Ok? ==> |r.value.0| < |s| && r.value.1.Operation? && UnchainedExpr(r.value.1)
  {
    var lhs :- ParseNonOperation(s);
    ParseOperationTail(lhs.1, ExtractWhitespaces(lhs.0).0)
  }

  /** The rest of `Expression::new_operation` once its left-hand side is parsed: an operator,
      spaces, and the right-hand side. */
  function ParseOperationTail(lhs: Expression, s: string): (r: Result<(string, Expression)>)
    requires !lhs.Operation? && UnchainedExpr(lhs)
    decreases |s|, 4
    ensures r.Ok? ==> |r.value.0| < |s| && r.value.1.Operation? && r.value.1.lhs == lhs
    ensures r.Ok? ==> UnchainedExpr(r.value.1)
  {
    var op :- ParseOp(s);
    var s1 := ExtractWhitespaces(op.0).0;
    var rhs :- ParseNonOperation(s1);
    Ok((rhs.0, Operation(lhs, rhs.1, op.1)))
  }

  /** `Expression::new_number`. */
  function ParseNumberExpr(s: string): (r: Result<(string, Expression)>)
    ensures r.Err? <==> !StartsWithDigit(s)
    ensures r.Ok? ==> |r.value.0| < |s| && r.value.1.Number?
    ensures r.Ok? ==> ParseNumber(s) == Ok((r.value.0, r.value.1.n))
    ensures r.Panic? <==> ParseNumber(s).Panic?
    ensures r.Panic? ==> r.reason == IntegerOverflow
  {
    var number :- ParseNumber(s);
    Ok((number.0, Expression.Number(number.1)))
  }

  /** `BindingUsage::new`: an identifier. */
  function ParseBindingUsage(s: string): (r: Result<(string, Expression)>)
    ensures r.Ok? || r.Err?
    ensures r.Ok? <==> StartsWithAlphabetic(s)
    ensures r.Err? ==> r.msg == "expected identifier"
    ensures r.Ok? ==> (|r.value.0| < |s| && r.value.1.BindingUsage? && IsIdent(r.value.1.name)
                       && r.value.1.name + r.value.0 == s)
    ensures r.Ok? ==> r.value.0 == [] || !IsAsciiAlphanumeric(r.value.0[0])
  {
    var ident :- ExtractIdent(s);
    Ok((ident.0, BindingUsage(ident.1)))
  }

  /** `FuncCall::new`: a callee name, spaces, then one or more arguments separated by spaces. */
  function ParseFuncCall(s: string): (r: Result<(string, Expression)>)
    decreases |s|, 2
    ensures r.Ok? ==> |r.value.0| < |s| && r.value.1.FuncCall? && UnchainedExpr(r.value.1)
    ensures r.Ok? ==> IsIdent(r.value.1.callee) && r.value.1.callee <= s && |r.value.1.params| >= 1
    ensures r.Ok? ==> ExtractIdent(s).Ok? && r.value.1.callee == ExtractIdent(s).value.1
  {
    var callee :- ExtractIdent(s);
    var s1 := ExtractSpaces(callee.0).0;
    var params :- RequireNonEmpty(ParseExpressionSequence(s1));
    Ok((params.0, FuncCall(callee.1, params.1)))
  }

  /** `sequence(Expression::new, spaces)`, the arguments of a call. */
  function ParseExpressionSequence(s: string): (r: Result<(string, seq<Expression>)>)
    decreases |s|, 6
    ensures !r.Err?
    ensures r.Ok? ==> |r.value.0| <= |s| && forall i :: 0 <= i < |r.value.1| ==> UnchainedExpr(r.value.1[i])
    ensures r.Ok? && r.value.1 == [] ==> r.value.0 == s
  {
    match ParseExpression(s)
    case Ok((afterItem, item)) =>
      var next := ExtractSpaces(afterItem).0;
      var tail := ParseExpressionSequence(next);
      assert tail.Ok? ==> forall i :: 0 <= i < |[item] + tail.value.1| ==>
        ([item] + tail.value.1)[i] == if i == 0 then item else tail.value.1[i - 1];
      PrependItems([item], tail)
    case Err(_) => Ok((s, []))
    case Panic(reason) => Panic(reason)
    case Exhausted => Exhausted
  }

  /** `Block::new`: `{`, whitespace, statements separated by whitespace, whitespace, `}`. */
  function ParseBlock(s: string): (r: Result<(string, Expression)>)
    decreases |s|, 2
    ensures r.Ok? ==> |r.value.0| < |s| && r.value.1.Block? && UnchainedExpr(r.value.1)
    ensures r.Ok? ==> s[0] == '{'
  {
    var s1 :- Tag("{", s);
    var s2 := ExtractWhitespaces(s1).0;
    var stmts :- ParseStatementSequence(s2);
    var s3 := ExtractWhitespaces(stmts.0).0;
    var s4 :- Tag("}", s3);
    Ok((s4, Block(stmts.1)))
  }

  /** `sequence(Statement::new, extract_whitespaces)`, the body of a block. */
  function ParseStatementSequence(s: string): (r: Result<(string, seq<Statement>)>)
    decreases |s|, 7
    ensures !r.Err?
    ensures r.Ok? ==> |r.value.0| <= |s| && forall i :: 0 <= i < |r.value.1| ==> UnchainedStmt(r.value.1[i])
    ensures r.Ok? && r.value.1 == [] ==> r.value.0 == s
  {
    match ParseStatement(s)
    case Ok((afterItem, item)) =>
      var next := ExtractWhitespaces(afterItem).0;
      var tail := ParseStatementSequence(next);
      assert tail.Ok? ==> forall i :: 0 <= i < |[item] + tail.value.1| ==>
        ([item] + tail.value.1)[i] == if i == 0 then item else tail.value.1[i - 1];
      PrependItems([item], tail)
    case Err(_) => Ok((s, []))
    case Panic(reason) => Panic(reason)
    case Exhausted => Exhausted
  }

  /** `BindingDef::new`: `let`, at least one space, a name, spaces, `=`, spaces, an expression. */
  function ParseBindingDef(s: string): (r: Result<(string, Statement)>)
    decreases |s|, 5
    ensures r.Ok? ==> |r.value.0| < |s| && r.value.1.BindingDef? && UnchainedStmt(r.value.1)
    ensures r.Ok? ==> "let" <= s && IsIdent(r.value.1.name)
  {
    var s1 :- Tag("let", s);
    var spaces :- ExtractWhitespacesWithError(s1);
    var name :- ExtractIdent(spaces.0);
    var s2 := ExtractWhitespaces(name.0).0;
    var s3 :- Tag("=", s2);
    var s4 := ExtractWhitespaces(s3).0;
    var value :- ParseExpression(s4);
    Ok((value.0, BindingDef(name.1, value.1)))
  }

  /** `Statement::new`: a binding definition, or else, from the same input, an expression. */
  function ParseStatement(s: string): (r: Result<(string, Statement)>)
    decreases |s|, 6
    ensures r.Ok? ==> |r.value.0| < |s| && UnchainedStmt(r.value.1)
  {
    OrElse(ParseBindingDef(s), WithExprStatement(ParseExpression(s)))
  }

  function WithExprStatement(r: Result<(string, Expression)>): Result<(string, Statement)> {
    if r.Ok? then Ok((r.value.0, ExprStatement(r.value.1))) else r.PropagateFailure()
  }
}
