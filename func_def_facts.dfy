/** What `FuncDef::new` (crates/moye/src/func_def.rs) reads: the shape of a definition, its
    parameter list, and the three definitions of its tests, each stated for any names. */
module FuncDefFacts {
  import opened Results
  import opened Scanners
  import opened Syntax
  import opened Parser
  import opened ParserFacts
  import opened FuncDefs

  /** Every layout of the head is read as its name, up to what follows the whitespace
      after the name. */
  lemma HeadOf(s: string, ws1: string, name: string, ws2: string, rest: string)
    requires HeadLayout(s, ws1, name, ws2, rest)
    ensures ParseFuncHead(s) == Ok((rest, name))
  {
    var afterName := ws2 + rest;
    var fromName := name + afterName;
    TagRemovesExactlyTheLiteral("fun", ws1 + fromName);
    assert fromName[0] == name[0];
    WhitespaceRun(ws1, fromName);
    if ws2 != [] {
      assert afterName[0] == ws2[0];
    } else {
      assert afterName == rest;
    }
    TakeWhileUnique(IsAsciiAlphanumeric, fromName, name, afterName);
    WhitespaceRun(ws2, rest);
  }

  /** The names and separators after the first of a parameter layout are a layout too. */
  lemma ParamLayoutTail(names: seq<string>, seps: seq<string>, rest: string)
    requires names != [] && ParamLayout(names, seps, rest)
    ensures ParamLayout(names[1..], seps[1..], rest)
    ensures names[1..] == [] ==> ParamText(names, seps, rest) == names[0] + (seps[0] + rest)
  {
    forall i | 0 <= i < |names| - 1 ensures IsIdent(names[1..][i]) && All(IsWhitespace, seps[1..][i]) {
      assert names[1..][i] == names[i + 1] && seps[1..][i] == seps[i + 1];
    }
    forall i | 0 <= i < |names| - 2 ensures seps[1..][i] != [] {
      assert seps[1..][i] == seps[i + 1];
    }
    if |names| > 1 {
      assert seps[1..][|names| - 2] == seps[|names| - 1];
    }
  }

  /** Every parameter layout is read as exactly its names, up to `rest`. */
  lemma {:induction false} ParamsOf(names: seq<string>, seps: seq<string>, rest: string)
    requires ParamLayout(names, seps, rest)
    ensures Shortening(ExtractIdent) && NotLengthening(ExtractWhitespaces)
    ensures Sequence(ExtractIdent, ExtractWhitespaces, ParamText(names, seps, rest)) == Ok((rest, names))
    ensures ParseParams(ParamText(names, seps, rest)) == (rest, names)
    decreases names
  {
    ExtractIdentProgresses();
    WhitespaceScannersNarrow();
    if names == [] {
      assert ExtractIdent(rest).Err?;
    } else {
      var name := names[0];
      var ws := seps[0];
      ParamLayoutTail(names, seps, rest);
      var next := ParamText(names[1..], seps[1..], rest);
      var afterName := ws + next;
      var s := name + afterName;
      assert IsIdent(name) && All(IsWhitespace, ws);
      assert ParamText(names, seps, rest) == s;
      assert s[0] == name[0];
      if names[1..] != [] {
        assert IsIdent(names[1..][0]) && next[0] == names[1..][0][0];
        assert ws != [];
        assert afterName[0] == ws[0];
      } else if ws != [] {
        assert afterName[0] == ws[0];
      } else {
        assert seps[|names| - 1] == ws;
      }
      TakeWhileUnique(IsAsciiAlphanumeric, s, name, afterName);
      WhitespaceRun(ws, next);
      ParamsOf(names[1..], seps[1..], rest);
      assert [name] + names[1..] == names;
    }
  }

  /** Every layout of a definition is read as the definition of its name with its parameters
      and the statement its body text starts with, or carries that statement's failure. */
  lemma FuncDefOf(s: string, ws1: string, name: string, ws2: string, params: seq<string>,
                  seps: seq<string>, ws3: string, body: string)
    requires FuncDefLayout(s, ws1, name, ws2, params, seps, ws3, body)
    ensures var st := ParseStatement(body);
      ParseFuncDef(s) == if st.Ok? then Ok((st.value.0, FuncDef(name, params, st.value.1))) else st.PropagateFailure()
  {
    var arrow := "=>" + (ws3 + body);
    HeadOf(s, ws1, name, ws2, ParamText(params, seps, arrow));
    ParamsOf(params, seps, arrow);
    TagRemovesExactlyTheLiteral("=>", ws3 + body);
    WhitespaceRun(ws3, body);
  }

  /** An empty block as a whole statement. */
  lemma EmptyBlockStatement()
    ensures ParseStatement("{}") == Ok(([], ExprStatement(Block([]))))
  {
    NothingToParse("}");
    assert ParseStatementSequence("}") == Ok(("}", []));
    BlockOf("", "}", "", "");
    assert "{" + ("" + "}") == "{}";
    BlockIsNonOperation("{}");
    OperationFirst("{}");
    BindingDefFirst("{}");
  }

  /** func_def.rs `parse_func_def_with_no_params_and_empty_body`
      (`FuncDef::new("fun nothing => {}")`), for any name. */
  lemma FuncDefWithNoParamsAndEmptyBody(name: string)
    requires IsIdent(name)
    ensures ParseFuncDef("fun" + (" " + (name + (" " + ("=>" + (" " + "{}"))))))
      == Ok(([], FuncDef(name, [], ExprStatement(Block([])))))
  {
    var s := "fun" + (" " + (name + (" " + ("=>" + (" " + "{}")))));
    assert All(IsWhitespace, " ");
    assert FuncDefLayout(s, " ", name, " ", [], [], " ", "{}");
    EmptyBlockStatement();
    FuncDefOf(s, " ", name, " ", [], [], " ", "{}");
  }

  /** func_def.rs `parse_func_def_with_one_param_and_empty_body`
      (`FuncDef::new("fun greet name => {}")`), for any names. */
  lemma FuncDefWithOneParamAndEmptyBody(name: string, param: string)
    requires IsIdent(name) && IsIdent(param)
    ensures ParseFuncDef("fun" + (" " + (name + (" " + (param + (" " + ("=>" + (" " + "{}"))))))))
      == Ok(([], FuncDef(name, [param], ExprStatement(Block([])))))
  {
    var arrow := "=>" + (" " + "{}");
    var s := "fun" + (" " + (name + (" " + (param + (" " + arrow)))));
    assert All(IsWhitespace, " ");
    assert ParamText([param], [" "], arrow) == param + (" " + arrow) by {
      assert [param][1..] == [] && [" "][1..] == [];
    }
    assert ParamLayout([param], [" "], arrow);
    assert FuncDefLayout(s, " ", name, " ", [param], [" "], " ", "{}");
    EmptyBlockStatement();
    FuncDefOf(s, " ", name, " ", [param], [" "], " ", "{}");
  }

  /** `a op b` for two names, with single spaces, is the operation on the two binding
      usages. */
  lemma OperationOfNames(a: string, op: Op, b: string)
    requires IsIdent(a) && IsIdent(b)
    ensures ParseExpression(a + (" " + ([OpChar(op)] + (" " + b))))
      == Ok(([], Operation(BindingUsage(a), BindingUsage(b), op)))
  {
    var c := OpChar(op);
    assert !IsAsciiAlphanumeric(c) && !IsWhitespace(c) && c != '{' by {
      match op case Add => case Sub => case Mul => case Div =>
    }
    var fromOp := [c] + (" " + b);
    var afterA := " " + fromOp;
    assert All(IsSpace, " ") && fromOp[0] == c;
    TakeWhileUnique(IsSpace, afterA, " ", fromOp);
    assert ExtractSpaces(afterA).0 == fromOp;
    NonOperationOfName(a, afterA);
    NameAlone(b);
    assert b[0] != ' ' && b[0] != '\n';
    assert All(IsWhitespace, " ");
    OperationOf(a + afterA, BindingUsage(a), " ", op, " ", b, BindingUsage(b), []);
  }

  /** A name with nothing after it is a binding usage. */
  lemma NameAlone(name: string)
    requires IsIdent(name)
    ensures ParseNonOperation(name) == Ok(([], BindingUsage(name)))
  {
    TakeWhileUnique(IsSpace, [], [], []);
    assert name + [] == name;
    NonOperationOfName(name, []);
  }

  /** The same as a whole statement, when `a` does not start with `l` (and so not with
      `let`). */
  lemma OperationOfNamesStatement(a: string, op: Op, b: string)
    requires IsIdent(a) && IsIdent(b) && a[0] != 'l'
    ensures ParseStatement(a + (" " + ([OpChar(op)] + (" " + b))))
      == Ok(([], ExprStatement(Operation(BindingUsage(a), BindingUsage(b), op))))
  {
    var s := a + (" " + ([OpChar(op)] + (" " + b)));
    OperationOfNames(a, op, b);
    assert s[0] == a[0];
    BindingDefFirst(s);
  }

  /** func_def.rs `parse_func_def_with_multiple_params_and_non_empty_body`
      (`FuncDef::new("fun add x y => x + y")`), for any names. */
  lemma FuncDefWithTwoParamsAndOperationBody(name: string, x: string, y: string, op: Op)
    requires IsIdent(name) && IsIdent(x) && IsIdent(y) && x[0] != 'l'
    ensures var body := x + (" " + ([OpChar(op)] + (" " + y)));
      ParseFuncDef("fun" + (" " + (name + (" " + (x + (" " + (y + (" " + ("=>" + (" " + body))))))))))
      == Ok(([], FuncDef(name, [x, y], ExprStatement(Operation(BindingUsage(x), BindingUsage(y), op)))))
  {
    var body := x + (" " + ([OpChar(op)] + (" " + y)));
    var arrow := "=>" + (" " + body);
    var s := "fun" + (" " + (name + (" " + (x + (" " + (y + (" " + arrow)))))));
    assert body[0] == x[0];
    assert All(IsWhitespace, " ");
    assert ParamText([x, y], [" ", " "], arrow) == x + (" " + (y + (" " + arrow))) by {
      assert [x, y][1..] == [y] && [" ", " "][1..] == [" "];
      assert [y][1..] == [] && [" "][1..] == [];
    }
    assert ParamLayout([x, y], [" ", " "], arrow);
    assert FuncDefLayout(s, " ", name, " ", [x, y], [" ", " "], " ", body);
    OperationOfNamesStatement(x, op, y);
    FuncDefOf(s, " ", name, " ", [x, y], [" ", " "], " ", body);
  }
}
