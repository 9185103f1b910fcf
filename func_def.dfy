/** Function definitions, crates/moye/src/func_def.rs: `fun name p1 p2 => body`. Nothing
    else in the crate calls `FuncDef::new`, so these are standalone operations. */
module FuncDefs {
  import opened Results
  import opened Scanners
  import opened Syntax
  import opened Parser
  import opened Environment
  import opened Numbers

  datatype FuncDef = FuncDef(name: string, params: seq<string>, body: Statement)

  /** `fun`, a non-empty run of whitespace, the name, and the longest run of whitespace
      after it, in front of `rest`: the layouts that the head of `FuncDef::new` reads. */
  predicate HeadLayout(s: string, ws1: string, name: string, ws2: string, rest: string) {
    s == "fun" + (ws1 + (name + (ws2 + rest))) &&
    ws1 != [] && All(IsWhitespace, ws1) && IsIdent(name) && All(IsWhitespace, ws2) &&
    (rest == [] || !IsWhitespace(rest[0])) &&
    (ws2 == [] ==> rest == [] || !IsAsciiAlphanumeric(rest[0]))
  }

  /** The head of `FuncDef::new`: `fun`, at least one whitespace, a name, and whitespace. It
      fails with the message of the first piece that is missing; otherwise it reads the
      name that follows `fun` and the whitespace. */
  function ParseFuncHead(s: string): (r: Result<(string, string)>)
    ensures r.Ok? || r.Err?
    ensures !("fun" <= s) ==> r == Err("expected fun")
    ensures "fun" <= s && (|s| == 3 || !IsWhitespace(s[3])) ==> r == Err("expected a space")
    ensures "fun" <= s && |s| > 3 && IsWhitespace(s[3]) && !StartsWithAlphabetic(ExtractWhitespaces(s[3..]).0)
      ==> r == Err("expected identifier")
    ensures r.Ok? <==>
      "fun" <= s && |s| > 3 && IsWhitespace(s[3]) && StartsWithAlphabetic(ExtractWhitespaces(s[3..]).0)
    ensures r.Ok? ==> exists ws1, ws2 :: HeadLayout(s, ws1, r.value.1, ws2, r.value.0)
  {
    var s1 :- Tag("fun", s);
    assert s1 == s[3..];
    var spaces :- ExtractWhitespacesWithError(s1);
    var name :- ExtractIdent(spaces.0);
    var after := ExtractWhitespaces(name.0);
    assert HeadLayout(s, spaces.1, name.1, after.1, after.0);
    Ok((after.0, name.1))
  }

  /** Each name followed by its separator, then `rest`. */
  function ParamText(names: seq<string>, seps: seq<string>, rest: string): (r: string)
    requires |seps| == |names|
    ensures names == [] ==> r == rest
    ensures names != [] && names[0] != [] ==> r != [] && r[0] == names[0][0]
  {
    if names == [] then rest
    else names[0] + (seps[0] + ParamText(names[1..], seps[1..], rest))
  }

  /** The layouts that the parameter list reads as exactly `names`: identifiers, each
      followed by the longest run of whitespace after it. Only the last run may be empty,
      and then no digit follows; `rest` starts with no letter, and after a name with no
      whitespace. */
  predicate ParamLayout(names: seq<string>, seps: seq<string>, rest: string) {
    |seps| == |names| &&
    (forall i :: 0 <= i < |names| ==> IsIdent(names[i]) && All(IsWhitespace, seps[i])) &&
    (forall i :: 0 <= i < |names| - 1 ==> seps[i] != []) &&
    !StartsWithAlphabetic(rest) &&
    (names != [] ==> rest == [] || !IsWhitespace(rest[0])) &&
    (names != [] && seps[|names| - 1] == [] ==> rest == [] || !IsAsciiDigit(rest[0]))
  }

  /** One more name and its whitespace in front of a parameter layout. */
  lemma ParamLayoutCons(name: string, ws: string, names: seq<string>, seps: seq<string>, rest: string)
    requires IsIdent(name) && All(IsWhitespace, ws) && ParamLayout(names, seps, rest)
    requires names != [] ==> ws != []
    requires names == [] ==> (rest == [] || !IsWhitespace(rest[0])) && (ws == [] ==> rest == [] || !IsAsciiDigit(rest[0]))
    ensures ParamLayout([name] + names, [ws] + seps, rest)
    ensures ParamText([name] + names, [ws] + seps, rest) == name + (ws + ParamText(names, seps, rest))
  {
    var names' := [name] + names;
    var seps' := [ws] + seps;
    assert names'[1..] == names && seps'[1..] == seps;
    forall i | 0 <= i < |names'| ensures IsIdent(names'[i]) && All(IsWhitespace, seps'[i]) {
      if i > 0 { assert names'[i] == names[i - 1] && seps'[i] == seps[i - 1]; }
    }
    forall i | 0 <= i < |names'| - 1 ensures seps'[i] != [] {
      if i > 0 { assert seps'[i] == seps[i - 1]; }
    }
    if names != [] {
      assert seps'[|names'| - 1] == seps[|names| - 1];
    }
  }

  /** What `sequence(extract_ident, extract_whitespaces)` reads, by induction on the input. */
  lemma {:induction false} SequenceOfParams(s: string)
    requires Shortening(ExtractIdent) && NotLengthening(ExtractWhitespaces) && Recoverable(ExtractIdent)
    ensures Sequence(ExtractIdent, ExtractWhitespaces, s).Ok?
    ensures var r := Sequence(ExtractIdent, ExtractWhitespaces, s).value;
      exists seps :: ParamLayout(r.1, seps, r.0) && ParamText(r.1, seps, r.0) == s
    decreases |s|
  {
    var r := Sequence(ExtractIdent, ExtractWhitespaces, s).value;
    var first := ExtractIdent(s);
    if first.Ok? {
      var afterItem := first.value.0;
      var name := first.value.1;
      var next := ExtractWhitespaces(afterItem).0;
      var ws := ExtractWhitespaces(afterItem).1;
      SequenceOfParams(next);
      var tail := Sequence(ExtractIdent, ExtractWhitespaces, next).value;
      assert r == (tail.0, [name] + tail.1);
      var seps :| ParamLayout(tail.1, seps, tail.0) && ParamText(tail.1, seps, tail.0) == next;
      if tail.1 != [] {
        assert IsIdent(tail.1[0]) && next[0] == tail.1[0][0];
      } else {
        assert tail.0 == next;
      }
      ParamLayoutCons(name, ws, tail.1, seps, tail.0);
      assert ParamText(r.1, [ws] + seps, r.0) == s;
    } else {
      assert ParamLayout([], [], s) && ParamText([], [], s) == s;
    }
  }

  /** The parameter list: `sequence` of identifiers separated by whitespace. It reads the
      identifiers of the input in order, and stops where no identifier starts. */
  function ParseParams(s: string): (r: (string, seq<string>))
    ensures Narrowed(r.0, s) && !StartsWithAlphabetic(r.0)
    ensures r.1 == [] ==> r.0 == s
    ensures exists seps :: ParamLayout(r.1, seps, r.0) && ParamText(r.1, seps, r.0) == s
  {
    ExtractIdentProgresses();
    WhitespaceScannersNarrow();
    SequenceOfParams(s);
    Sequence(ExtractIdent, ExtractWhitespaces, s).value
  }

  /** A head, parameters, `=>`, the longest run of whitespace after it, and the text of the
      body: the layouts that `FuncDef::new` reads as a definition. */
  predicate FuncDefLayout(s: string, ws1: string, name: string, ws2: string, params: seq<string>,
                          seps: seq<string>, ws3: string, body: string) {
    |seps| == |params| &&
    HeadLayout(s, ws1, name, ws2, ParamText(params, seps, "=>" + (ws3 + body))) &&
    ParamLayout(params, seps, "=>" + (ws3 + body)) &&
    All(IsWhitespace, ws3) && (body == [] || !IsWhitespace(body[0]))
  }

  /** `FuncDef::new`: the head, then parameter names separated by whitespace, `=>`,
      whitespace, and a statement as the body. A definition it returns has the name,
      parameters and body statement that the input spells out. */
  function ParseFuncDef(s: string): (r: Result<(string, FuncDef)>)
    ensures !("fun" <= s) ==> r == Err("expected fun")
    ensures "fun" <= s && (|s| == 3 || !IsWhitespace(s[3])) ==> r == Err("expected a space")
    ensures "fun" <= s && |s| > 3 && IsWhitespace(s[3]) && !StartsWithAlphabetic(ExtractWhitespaces(s[3..]).0)
      ==> r == Err("expected identifier")
    ensures ParseFuncHead(s).Ok? && !("=>" <= ParseParams(ParseFuncHead(s).value.0).0) ==> r == Err("expected =>")
    ensures r.Ok? ==> |r.value.0| < |s| && UnchainedStmt(r.value.1.body)
    ensures r.Ok? ==> exists ws1, ws2, seps, ws3, text ::
      FuncDefLayout(s, ws1, r.value.1.name, ws2, r.value.1.params, seps, ws3, text) &&
      ParseStatement(text) == Ok((r.value.0, r.value.1.body))
  {
    var head :- ParseFuncHead(s);
    var params := ParseParams(head.0);
    var s1 :- Tag("=>", params.0);
    var bodyStart := ExtractWhitespaces(s1);
    var body :- ParseStatement(bodyStart.0);
    assert exists ws1, ws2, seps, ws3, text ::
      FuncDefLayout(s, ws1, head.1, ws2, params.1, seps, ws3, text) && ParseStatement(text) == Ok(body) by {
      var ws1, ws2 :| HeadLayout(s, ws1, head.1, ws2, head.0);
      var seps :| ParamLayout(params.1, seps, params.0) && ParamText(params.1, seps, params.0) == head.0;
      assert params.0 == "=>" + (bodyStart.1 + bodyStart.0);
      assert FuncDefLayout(s, ws1, head.1, ws2, params.1, seps, bodyStart.1, bodyStart.0);
    }
    Ok((body.0, FuncDef(head.1, params.1, body.1)))
  }

  /** `FuncDef::eval`: stores the parameters and body under the name in the current scope,
      replacing any entry there, without evaluating the body; it always succeeds. */
  method EvaluateFuncDef(def: FuncDef, env: Env) returns (r: Result<()>)
    requires env.Valid()
    modifies env
    ensures env.Valid()
    ensures env.Model() == Store(old(env.Model()), def.name, Func(def.params, def.body))
    ensures r == Ok(())
  {
    env.StoreFunc(def.name, def.params, def.body);
    r := Ok(());
  }
}
