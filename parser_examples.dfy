/** The parser tests of crates/moye, each stated as a lemma about the model. */
module ParserExamples {
  import opened Results
  import opened Numbers
  import opened Scanners
  import opened Syntax
  import opened Parser
  import opened ParserFacts

  /** expr.rs `parse_number`: `Number::new("123")`. */
  lemma ParseNumberTest()
    ensures ParseNumber("123") == Ok(("", 123))
  {
    assert DecimalString(123) == "123";
    NumberLiteral(123, "");
    assert "123" + "" == "123";
  }

  /** expr.rs `parse_number_as_expr`: `Expression::new("456")`. */
  lemma ParseNumberAsExprTest()
    ensures ParseExpression("456") == Ok(("", Expression.Number(456)))
  {
    assert DecimalString(456) == "456";
    NumberExpression(456, "");
    assert "456" + "" == "456";
  }

  /** expr.rs `parse_addition` through `parse_division`: `Operations::new` on each operator. */
  lemma ParseOperatorTests()
    ensures ParseOp("+") == Ok(("", Add)) && ParseOp("-") == Ok(("", Sub))
    ensures ParseOp("*") == Ok(("", Mul)) && ParseOp("/") == Ok(("", Div))
  {
    ParseOpRoundTrip(Add, "");
    ParseOpRoundTrip(Sub, "");
    ParseOpRoundTrip(Mul, "");
    ParseOpRoundTrip(Div, "");
  }

  /** expr.rs `add_numbers`: `Expression::new("1+2")`. */
  lemma AddNumbersTest()
    ensures ParseExpression("1+2") == Ok(("", Operation(Expression.Number(1), Expression.Number(2), Add)))
  {
    assert DecimalString(1) == "1" && DecimalString(2) == "2";
    OperationOfNumbers(1, "", Add, "", 2, "");
    assert "1" + ("" + (['+'] + ("" + ("2" + "")))) == "1+2";
  }

  /** expr.rs `parse_binding_usage`: `Expression::new("bar")`. */
  lemma ParseBindingUsageTest()
    ensures ParseExpression("bar") == Ok(("", BindingUsage("bar")))
  {
    assert IsIdent("bar");
    TakeWhileUnique(IsSpace, [], [], []);
    NameWithoutArguments("bar", "");
    assert "bar" + "" == "bar";
  }

  /** block.rs `parse_empty_block`: `Block::new("{}")`. */
  lemma ParseEmptyBlockTest()
    ensures ParseBlock("{}") == Ok(("", Block([])))
  {
    NothingToParse("}");
    assert ParseStatementSequence("}") == Ok(("}", []));
    BlockOf("", "}", "", "");
    assert "{" + ("" + "}") == "{}";
  }

  /** block.rs `parse_empty_block_with_whitespace`: `Block::new("{   }")`. */
  lemma ParseEmptyBlockWithWhitespaceTest()
    ensures ParseBlock("{   }") == Ok(("", Block([])))
  {
    NothingToParse("}");
    assert ParseStatementSequence("}") == Ok(("}", []));
    assert All(IsWhitespace, "   ");
    BlockOf("   ", "}", "", "");
    assert "{" + ("   " + "}") == "{   }";
  }

  /** A number expression followed by a space and input starting with `}` is a statement
      sequence of one statement, which stops at the `}`. */
  lemma NumberThenBrace(n: i32, rest: string)
    requires n >= 0
    requires rest != [] && rest[0] == '}'
    ensures ParseStatementSequence(DecimalString(n) + (" " + rest))
      == Ok((rest, [ExprStatement(Expression.Number(n))]))
  {
    var body := DecimalString(n) + (" " + rest);
    assert All(IsWhitespace, " ");
    WhitespaceRun(" ", rest);
    NumberExpression(n, " " + rest);
    assert !("let" <= body) by { assert body[0] == DecimalString(n)[0]; }
    BindingDefFirst(body);
    assert ParseStatement(body) == Ok((" " + rest, ExprStatement(Expression.Number(n))));
    NothingToParse(rest);
    OneStatementSequence(body);
  }

  /** block.rs `parse_block_with_one_stmt` (`Block::new("{ 5 }")`): a block holding one
      number expression, with one space inside each brace. */
  lemma BlockOfOneNumber(n: i32, rest: string)
    requires n >= 0
    ensures ParseBlock("{" + (" " + (DecimalString(n) + (" " + ("}" + rest)))))
      == Ok((rest, Block([ExprStatement(Expression.Number(n))])))
  {
    var body := DecimalString(n) + (" " + ("}" + rest));
    NumberThenBrace(n, "}" + rest);
    assert All(IsWhitespace, " ");
    assert body[0] == DecimalString(n)[0];
    BlockOf(" ", body, "", rest);
  }

  /** expr.rs `parse_block` (`Expression::new("{ 200 }")`): as an expression, such a block
      is read as the block, not as the start of an operation. */
  lemma BlockOfOneNumberAsExpression(n: i32, rest: string)
    requires n >= 0
    requires var t := ExtractWhitespaces(rest).0; t == [] || !IsOpChar(t[0])
    ensures ParseExpression("{" + (" " + (DecimalString(n) + (" " + ("}" + rest)))))
      == Ok((rest, Block([ExprStatement(Expression.Number(n))])))
  {
    var s := "{" + (" " + (DecimalString(n) + (" " + ("}" + rest))));
    BlockOfOneNumber(n, rest);
    BlockIsNonOperation(s);
    OperationFirst(s);
  }

  /** statements.rs `parse_binding_def` (`Statement::new("let a = 10")`): a binding of a
      name to a decimal literal, with single spaces, is a binding definition. */
  lemma BindingDefOfNumber(name: string, n: i32)
    requires IsIdent(name) && n >= 0
    ensures ParseStatement("let" + (" " + (name + (" " + ("=" + (" " + DecimalString(n)))))))
      == Ok(([], BindingDef(name, Expression.Number(n))))
  {
    NumberExpression(n, []);
    assert DecimalString(n) + [] == DecimalString(n);
    assert All(IsWhitespace, " ");
    BindingDefOf(" ", name, " ", " ", DecimalString(n));
    BindingDefFirst("let" + (" " + (name + (" " + ("=" + (" " + DecimalString(n)))))));
  }

  /** statements.rs `parse_expression` (`Statement::new("1+1")`): an operation on decimal
      literals is an expression statement. */
  lemma OperationStatement(lhs: i32, op: Op, rhs: i32)
    requires lhs >= 0 && rhs >= 0
    ensures ParseStatement(DecimalString(lhs) + ([OpChar(op)] + DecimalString(rhs)))
      == Ok(([], ExprStatement(Operation(Expression.Number(lhs), Expression.Number(rhs), op))))
  {
    OperationStatementOfNumbers(lhs, op, rhs, []);
    assert DecimalString(rhs) + [] == DecimalString(rhs);
  }

  /** A name at the end of a line, followed by input that is neither whitespace nor an
      operator: a binding usage, which stops at the line break. */
  lemma NameBeforeLineBreak(name: string, nl: string, next: string)
    requires IsIdent(name)
    requires nl != [] && nl[0] == '\n' && All(IsWhitespace, nl)
    requires next == [] || !(IsWhitespace(next[0]) || IsOpChar(next[0]))
    ensures ParseExpression(name + (nl + next)) == Ok((nl + next, BindingUsage(name)))
  {
    var after := nl + next;
    assert after[0] == '\n';
    TakeWhileUnique(IsSpace, after, [], after);
    assert ExtractSpaces(after).0 == after;
    WhitespaceRun(nl, next);
    assert ExtractWhitespaces(after).0 == next;
    NameWithoutArguments(name, after);
  }

  /** A line holding only a name, then a line break and `}`: a one-statement sequence that
      stops at the `}`. */
  lemma NameLine(b: string, nl: string)
    requires IsIdent(b) && b[0] != 'l'
    requires nl != [] && nl[0] == '\n' && All(IsWhitespace, nl)
    ensures ParseStatementSequence(b + (nl + "}")) == Ok(("}", [ExprStatement(BindingUsage(b))]))
  {
    var s := b + (nl + "}");
    NameBeforeLineBreak(b, nl, "}");
    assert s[0] == b[0];
    BindingDefFirst(s);
    assert ParseStatement(s) == Ok((nl + "}", ExprStatement(BindingUsage(b))));
    WhitespaceRun(nl, "}");
    NothingToParse("}");
    OneStatementSequence(s);
  }

  /** A statement, whitespace, then a statement sequence that stops at `}`: the statement
      ahead of that sequence's statements. */
  lemma StatementThenSequence(s: string, after: string, st: Statement, next: string, items: seq<Statement>)
    requires ParseStatement(s) == Ok((after, st))
    requires ExtractWhitespaces(after).0 == next
    requires ParseStatementSequence(next) == Ok(("}", items))
    ensures ParseStatementSequence(s) == Ok(("}", [st] + items))
  {
    StatementSequenceStep(s);
  }

  /** `let b = a` at the end of a line: a binding of `b` to the binding usage `a`, which
      stops at the line break. */
  lemma BindingToName(b: string, a: string, nl: string, next: string)
    requires IsIdent(a) && IsIdent(b)
    requires nl != [] && nl[0] == '\n' && All(IsWhitespace, nl)
    requires next != [] && IsAsciiAlphabetic(next[0])
    ensures ParseStatement("let" + (" " + (b + (" " + ("=" + (" " + (a + (nl + next))))))))
      == Ok((nl + next, BindingDef(b, BindingUsage(a))))
  {
    var after := nl + next;
    var value := a + after;
    assert value != [] && !IsWhitespace(value[0]) by { assert value[0] == a[0]; }
    NameBeforeLineBreak(a, nl, next);
    BindingStatementOf(b, value, after, BindingUsage(a));
  }

  /** `let a = n` at the end of a line, followed by `let`: a binding of `a` to the number,
      which stops at the line break. */
  lemma BindingToNumber(a: string, n: i32, nl: string, next: string)
    requires IsIdent(a) && n >= 0
    requires nl != [] && nl[0] == '\n' && All(IsWhitespace, nl)
    requires next != [] && next[0] == 'l'
    ensures ParseStatement("let" + (" " + (a + (" " + ("=" + (" " + (DecimalString(n) + (nl + next))))))))
      == Ok((nl + next, BindingDef(a, Expression.Number(n))))
  {
    var after := nl + next;
    var value := DecimalString(n) + after;
    assert value[0] == DecimalString(n)[0] && after[0] == '\n';
    WhitespaceRun(nl, next);
    assert ExtractWhitespaces(after).0 == next && !IsOpChar(next[0]);
    NumberExpression(n, after);
    BindingStatementOf(a, value, after, Expression.Number(n));
  }

  /** `let b = a`, a line break, `b`, a line break and `}`: the two statements in source
      order, stopping at the `}`. */
  lemma LastTwoLines(a: string, b: string, nl3: string, nl4: string)
    requires IsIdent(a) && IsIdent(b) && b[0] != 'l'
    requires nl3 != [] && nl3[0] == '\n' && All(IsWhitespace, nl3)
    requires nl4 != [] && nl4[0] == '\n' && All(IsWhitespace, nl4)
    ensures ParseStatementSequence("let" + (" " + (b + (" " + ("=" + (" " + (a + (nl3 + (b + (nl4 + "}"))))))))))
      == Ok(("}", [BindingDef(b, BindingUsage(a)), ExprStatement(BindingUsage(b))]))
  {
    var st2 := BindingDef(b, BindingUsage(a));
    var st3 := ExprStatement(BindingUsage(b));
    var third := b + (nl4 + "}");
    var second := "let" + (" " + (b + (" " + ("=" + (" " + (a + (nl3 + third)))))));
    assert third[0] == b[0];
    assert [st2] + [st3] == [st2, st3];
    WhitespaceRun(nl3, third);
    NameLine(b, nl4);
    BindingToName(b, a, nl3, third);
    StatementThenSequence(second, nl3 + third, st2, third, [st3]);
  }

  /** The three lines of block.rs `parse_block_with_multiple_statements` (`let a = 10`,
      `let b = a`, `b`) up to the closing brace: a statement sequence of the three
      statements in source order, which stops at the `}`. */
  lemma StatementsOnLines(a: string, b: string, n: i32, nl2: string, nl3: string, nl4: string)
    requires IsIdent(a) && IsIdent(b) && b[0] != 'l' && n >= 0
    requires nl2 != [] && nl2[0] == '\n' && All(IsWhitespace, nl2)
    requires nl3 != [] && nl3[0] == '\n' && All(IsWhitespace, nl3)
    requires nl4 != [] && nl4[0] == '\n' && All(IsWhitespace, nl4)
    ensures var third := b + (nl4 + "}");
      var second := "let" + (" " + (b + (" " + ("=" + (" " + (a + (nl3 + third)))))));
      ParseStatementSequence("let" + (" " + (a + (" " + ("=" + (" " + (DecimalString(n) + (nl2 + second))))))))
        == Ok(("}", [BindingDef(a, Expression.Number(n)), BindingDef(b, BindingUsage(a)), ExprStatement(BindingUsage(b))]))
  {
    var st1 := BindingDef(a, Expression.Number(n));
    var third := b + (nl4 + "}");
    var second := "let" + (" " + (b + (" " + ("=" + (" " + (a + (nl3 + third)))))));
    var first := "let" + (" " + (a + (" " + ("=" + (" " + (DecimalString(n) + (nl2 + second)))))));
    assert [st1] + [BindingDef(b, BindingUsage(a)), ExprStatement(BindingUsage(b))]
      == [st1, BindingDef(b, BindingUsage(a)), ExprStatement(BindingUsage(b))];
    assert second[0] == 'l';
    WhitespaceRun(nl2, second);
    LastTwoLines(a, b, nl3, nl4);
    BindingToNumber(a, n, nl2, second);
    StatementThenSequence(first, nl2 + second, st1, second, [BindingDef(b, BindingUsage(a)), ExprStatement(BindingUsage(b))]);
  }

  /** block.rs `parse_block_with_multiple_statements`: `let a = 10`, `let b = a` and `b`,
      each on a line of its own inside braces, make a block of the three statements in
      source order; stated for any names, number and line breaks. */
  lemma BlockOfStatementsOnLines(a: string, b: string, n: i32, nl1: string, nl2: string, nl3: string, nl4: string)
    requires IsIdent(a) && IsIdent(b) && b[0] != 'l' && n >= 0
    requires All(IsWhitespace, nl1)
    requires nl2 != [] && nl2[0] == '\n' && All(IsWhitespace, nl2)
    requires nl3 != [] && nl3[0] == '\n' && All(IsWhitespace, nl3)
    requires nl4 != [] && nl4[0] == '\n' && All(IsWhitespace, nl4)
    ensures var third := b + (nl4 + "}");
      var second := "let" + (" " + (b + (" " + ("=" + (" " + (a + (nl3 + third)))))));
      var first := "let" + (" " + (a + (" " + ("=" + (" " + (DecimalString(n) + (nl2 + second)))))));
      ParseBlock("{" + (nl1 + first))
        == Ok(([], Block([BindingDef(a, Expression.Number(n)), BindingDef(b, BindingUsage(a)), ExprStatement(BindingUsage(b))])))
  {
    var third := b + (nl4 + "}");
    var second := "let" + (" " + (b + (" " + ("=" + (" " + (a + (nl3 + third)))))));
    var first := "let" + (" " + (a + (" " + ("=" + (" " + (DecimalString(n) + (nl2 + second)))))));
    assert first[0] == 'l';
    assert "}" == [] + ("}" + []);
    StatementsOnLines(a, b, n, nl2, nl3, nl4);
    BlockOf(nl1, first, [], []);
  }
}
