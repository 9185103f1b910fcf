/** What evaluation guarantees, stated about the functions of `Semantics`: statements run in
    order and stop at the first failure, a block's value is its last statement's, fuel only
    bounds evaluation, and a scope matters only through what its names resolve to. */
module EvalFacts {
  import opened Results
  import opened Numbers
  import opened Syntax
  import opened Environment
  import opened Semantics

  /** Running `a + b` is running `a`, then `b` in the scope `a` leaves; a failure in `a`
      ends the run with that failure. */
  lemma {:induction false} RunStatementsAppend(fuel: nat, a: seq<Statement>, b: seq<Statement>, env: Scope)
    ensures var ra := RunStatements(fuel, a, env);
      RunStatements(fuel, a + b, env) == if ra.Ok? then RunStatements(fuel, b, ra.value) else ra
    decreases a
  {
    if a == [] {
      assert a + b == b;
    } else {
      assert (a + b)[0] == a[0] && (a + b)[1..] == a[1..] + b;
      var (v, next) := EvalStatement(fuel, a[0], env);
      if v.Ok? {
        RunStatementsAppend(fuel, a[1..], b, next);
      }
    }
  }

  /** `Statement::eval` changes the scope only through a binding definition whose value
      evaluates: it is then `Unit` and stores the value under the name. Any other statement,
      and any failure, leaves the scope as it was. */
  lemma StatementScope(fuel: nat, st: Statement, env: Scope)
    ensures var (r, after) := EvalStatement(fuel, st, env);
      (st.BindingDef? && Eval(fuel, st.value, env).Ok? ==>
         r == Ok(Unit) && after == Store(env, st.name, Binding(Eval(fuel, st.value, env).value))) &&
      (st.BindingDef? && !Eval(fuel, st.value, env).Ok? ==> r == Eval(fuel, st.value, env) && after == env) &&
      (st.ExprStatement? ==> r == Eval(fuel, st.expr, env) && after == env)
  {
  }

  /** `a op b` evaluates `a` first: its failure is the result whatever `b` is. Then a
      failure of `b` is the result. Two values that are not both numbers give the
      "not both numbers" error, and two numbers give `Arith` of them as a number, or its
      panic. */
  lemma OperationOutcome(fuel: nat, lhs: Expression, rhs: Expression, op: Op, env: Scope)
    ensures var l := Eval(fuel, lhs, env);
      var r := Eval(fuel, rhs, env);
      var e := Eval(fuel, Operation(lhs, rhs, op), env);
      (!l.Ok? ==> e == l) &&
      (l.Ok? && !r.Ok? ==> e == r) &&
      (l.Ok? && r.Ok? && !(l.value.Number? && r.value.Number?) ==> e == Err(NotBothNumbers)) &&
      (l.Ok? && r.Ok? && l.value.Number? && r.value.Number? ==>
         var n := Arith(op, l.value.n, r.value.n);
         e == if n.Ok? then Ok(Val.Number(n.value)) else n.PropagateFailure())
  {
  }

  /** A failure of one statement is the failure of the whole block, whatever follows it. */
  lemma BlockStopsAtFailure(fuel: nat, before: seq<Statement>, st: Statement, after: seq<Statement>, env: Scope)
    requires RunStatements(fuel, before, Child(env)).Ok?
    requires !EvalStatement(fuel, st, RunStatements(fuel, before, Child(env)).value).0.Ok?
    ensures EvalBlock(fuel, before + [st] + after, env)
      == EvalStatement(fuel, st, RunStatements(fuel, before, Child(env)).value).0
  {
    var stmts := before + [st] + after;
    var m := RunStatements(fuel, before, Child(env)).value;
    var v := EvalStatement(fuel, st, m).0;
    if after == [] {
      assert stmts[..|stmts| - 1] == before && stmts[|stmts| - 1] == st;
    } else {
      var rest := after[..|after| - 1];
      assert stmts[..|stmts| - 1] == before + ([st] + rest);
      RunStatementsAppend(fuel, before, [st] + rest, Child(env));
      assert ([st] + rest)[0] == st && ([st] + rest)[1..] == rest;
      assert RunStatements(fuel, [st] + rest, m) == v.PropagateFailure();
    }
  }

  /** When every statement before the last succeeds, a block has the value of its last
      statement, run in the scope the others built inside a child of the caller's scope. */
  lemma BlockValueIsLast(fuel: nat, init: seq<Statement>, last: Statement, env: Scope)
    requires RunStatements(fuel, init, Child(env)).Ok?
    ensures EvalBlock(fuel, init + [last], env) == EvalStatement(fuel, last, RunStatements(fuel, init, Child(env)).value).0
  {
    assert (init + [last])[..|init|] == init;
  }

  /** A block whose last statement is a binding definition is `Unit` when that definition's
      value evaluates. */
  lemma BlockEndingInBindingDefIsUnit(fuel: nat, init: seq<Statement>, name: string, value: Expression, env: Scope)
    requires RunStatements(fuel, init, Child(env)).Ok?
    requires Eval(fuel, value, RunStatements(fuel, init, Child(env)).value).Ok?
    ensures EvalBlock(fuel, init + [BindingDef(name, value)], env) == Ok(Unit)
  {
    BlockValueIsLast(fuel, init, BindingDef(name, value), env);
  }

  /** Binding `a1 + a2` binds `a1`, then `a2` in the scope `a1` leaves; a failing argument
      of `a1` ends the loop with that failure. */
  lemma {:induction false} BindParamsAppend(fuel: nat, p1: seq<string>, a1: seq<Expression>,
                                            p2: seq<string>, a2: seq<Expression>, env: Scope)
    requires |p1| == |a1| && |p2| == |a2|
    ensures var r1 := BindParams(fuel, p1, a1, env);
      BindParams(fuel, p1 + p2, a1 + a2, env) == if r1.Ok? then BindParams(fuel, p2, a2, r1.value) else r1
    decreases a1
  {
    if a1 == [] {
      assert p1 + p2 == p2 && a1 + a2 == a2;
    } else {
      assert (a1 + a2)[0] == a1[0] && (a1 + a2)[1..] == a1[1..] + a2;
      assert (p1 + p2)[0] == p1[0] && (p1 + p2)[1..] == p1[1..] + p2;
      var v := Eval(fuel, a1[0], env);
      if v.Ok? {
        BindParamsAppend(fuel, p1[1..], a1[1..], p2, a2, Store(env, p1[0], Binding(v.value)));
      }
    }
  }

  /** Binding the remaining arguments never touches a name that is not among their
      parameters. */
  lemma {:induction false} LaterBindingsKeep(fuel: nat, params: seq<string>, args: seq<Expression>, env: Scope, name: string)
    requires |params| == |args| && name !in params
    requires BindParams(fuel, params, args, env).Ok?
    ensures Lookup(BindParams(fuel, params, args, env).value, name) == Lookup(env, name)
    decreases args
  {
    if args != [] {
      var v := Eval(fuel, args[0], env);
      assert params[0] != name && name !in params[1..];
      LaterBindingsKeep(fuel, params[1..], args[1..], Store(env, params[0], Binding(v.value)), name);
    }
  }

  /** The argument loop stops at the first argument that fails, with that failure. */
  lemma BindingStopsAtFailingArgument(fuel: nat, params: seq<string>, pre: seq<Expression>, a: Expression,
                                      post: seq<Expression>, env: Scope)
    requires |params| == |pre| + 1 + |post|
    requires BindParams(fuel, params[..|pre|], pre, env).Ok?
    requires !Eval(fuel, a, BindParams(fuel, params[..|pre|], pre, env).value).Ok?
    ensures BindParams(fuel, params, pre + [a] + post, env)
      == Eval(fuel, a, BindParams(fuel, params[..|pre|], pre, env).value).PropagateFailure()
  {
    var args := pre + [a] + post;
    var k := |pre|;
    assert args[..k] == pre;
    assert args[k..] != [] && args[k..][0] == a;
    BindParamsSplit(fuel, params, args, k, env);
    FailingFirstArgument(fuel, params[k..], args[k..], BindParams(fuel, params[..k], pre, env).value);
  }

  /** Binding is sequential at every split point of the argument list. */
  lemma BindParamsSplit(fuel: nat, params: seq<string>, args: seq<Expression>, k: nat, env: Scope)
    requires |params| == |args| && k <= |args|
    ensures var r1 := BindParams(fuel, params[..k], args[..k], env);
      BindParams(fuel, params, args, env)
        == if r1.Ok? then BindParams(fuel, params[k..], args[k..], r1.value) else r1
  {
    assert params[..k] + params[k..] == params && args[..k] + args[k..] == args;
    BindParamsAppend(fuel, params[..k], args[..k], params[k..], args[k..], env);
  }

  /** An argument list whose first argument fails binds nothing: the failure is the result. */
  lemma FailingFirstArgument(fuel: nat, params: seq<string>, args: seq<Expression>, env: Scope)
    requires |params| == |args| && args != []
    requires !Eval(fuel, args[0], env).Ok?
    ensures BindParams(fuel, params, args, env) == Eval(fuel, args[0], env).PropagateFailure()
  {
  }

  /** `FuncCall::eval` stops at the first argument that fails: the call fails as that
      argument does, and the arguments after it are never evaluated. */
  lemma CallStopsAtFailingArgument(fuel: nat, callee: string, params: seq<string>, body: Statement,
                                   pre: seq<Expression>, a: Expression, post: seq<Expression>, env: Scope)
    requires GetFunc(env, callee) == Ok((params, body))
    requires |params| == |pre| + 1 + |post|
    requires BindParams(fuel, params[..|pre|], pre, Child(env)).Ok?
    requires !Eval(fuel, a, BindParams(fuel, params[..|pre|], pre, Child(env)).value).Ok?
    ensures EvalCall(fuel, callee, pre + [a] + post, env)
      == Eval(fuel, a, BindParams(fuel, params[..|pre|], pre, Child(env)).value)
  {
    BindingStopsAtFailingArgument(fuel, params, pre, a, post, Child(env));
  }

  /** After a successful argument loop, a parameter that no later parameter repeats holds the
      value of its argument, evaluated in the scope the earlier arguments built. */
  lemma ParameterHoldsArgument(fuel: nat, params: seq<string>, pre: seq<Expression>, a: Expression,
                               post: seq<Expression>, env: Scope)
    requires |params| == |pre| + 1 + |post|
    requires params[|pre|] !in params[|pre| + 1..]
    requires BindParams(fuel, params, pre + [a] + post, env).Ok?
    ensures BindParams(fuel, params[..|pre|], pre, env).Ok?
    ensures GetBinding(BindParams(fuel, params, pre + [a] + post, env).value, params[|pre|])
      == Eval(fuel, a, BindParams(fuel, params[..|pre|], pre, env).value)
  {
    var p := params[|pre|];
    var args := pre + [a] + post;
    assert params == params[..|pre|] + ([p] + params[|pre| + 1..]);
    assert args == pre + ([a] + post);
    BindParamsAppend(fuel, params[..|pre|], pre, [p] + params[|pre| + 1..], [a] + post, env);
    var sc := BindParams(fuel, params[..|pre|], pre, env).value;
    assert ([a] + post)[0] == a && ([a] + post)[1..] == post;
    assert ([p] + params[|pre| + 1..])[0] == p && ([p] + params[|pre| + 1..])[1..] == params[|pre| + 1..];
    var v := Eval(fuel, a, sc);
    var stored := Store(sc, p, Binding(v.value));
    assert BindParams(fuel, params, args, env) == BindParams(fuel, params[|pre| + 1..], post, stored);
    LaterBindingsKeep(fuel, params[|pre| + 1..], post, stored, p);
  }

  // Fuel only bounds evaluation: a result other than `Exhausted` stays the same, and so
  // does the scope a statement leaves, under any larger fuel.

  lemma {:induction false} EvalFuelMonotone(fuel: nat, more: nat, e: Expression, env: Scope)
    requires fuel <= more && Eval(fuel, e, env) != Exhausted
    ensures Eval(more, e, env) == Eval(fuel, e, env)
    decreases fuel, e, 0
  {
    match e
    case Number(_) =>
    case Operation(lhs, rhs, op) =>
      EvalFuelMonotone(fuel, more, lhs, env);
      if Eval(fuel, lhs, env).Ok? {
        EvalFuelMonotone(fuel, more, rhs, env);
      }
    case FuncCall(callee, args) =>
      CallFuelMonotone(fuel, more, callee, args, env);
    case BindingUsage(_) =>
    case Block(stmts) =>
      BlockFuelMonotone(fuel, more, stmts, env);
  }

  lemma {:induction false} CallFuelMonotone(fuel: nat, more: nat, callee: string, args: seq<Expression>, env: Scope)
    requires fuel <= more && EvalCall(fuel, callee, args, env) != Exhausted
    ensures EvalCall(more, callee, args, env) == EvalCall(fuel, callee, args, env)
    decreases fuel, args, 1
  {
    var f := GetFunc(env, callee);
    if f.Ok? && |f.value.0| == |args| {
      ParamsFuelMonotone(fuel, more, f.value.0, args, Child(env));
      var callScope := BindParams(fuel, f.value.0, args, Child(env));
      if callScope.Ok? {
        assert fuel > 0;
        StatementFuelMonotone(fuel - 1, more - 1, f.value.1, callScope.value);
        assert EvalCall(fuel, callee, args, env) == EvalStatement(fuel - 1, f.value.1, callScope.value).0;
        assert EvalCall(more, callee, args, env) == EvalStatement(more - 1, f.value.1, callScope.value).0;
        assert EvalCall(more, callee, args, env) == EvalCall(fuel, callee, args, env);
      } else {
        assert EvalCall(fuel, callee, args, env) == callScope.PropagateFailure();
        assert EvalCall(more, callee, args, env) == callScope.PropagateFailure();
        assert EvalCall(more, callee, args, env) == EvalCall(fuel, callee, args, env);
      }
    } else if f.Ok? {
      var message := ArityMessage(|f.value.0|, |args|);
      assert EvalCall(more, callee, args, env) == Err(message) == EvalCall(fuel, callee, args, env);
    } else {
      assert EvalCall(more, callee, args, env) == Err(FuncMissing(callee)) == EvalCall(fuel, callee, args, env);
    }
  }

  lemma {:induction false} ParamsFuelMonotone(fuel: nat, more: nat, params: seq<string>, args: seq<Expression>, env: Scope)
    requires |params| == |args|
    requires fuel <= more && BindParams(fuel, params, args, env) != Exhausted
    ensures BindParams(more, params, args, env) == BindParams(fuel, params, args, env)
    decreases fuel, args, 0
  {
    if args != [] {
      EvalFuelMonotone(fuel, more, args[0], env);
      var v := Eval(fuel, args[0], env);
      if v.Ok? {
        ParamsFuelMonotone(fuel, more, params[1..], args[1..], Store(env, params[0], Binding(v.value)));
      }
    }
  }

  lemma {:induction false} StatementFuelMonotone(fuel: nat, more: nat, st: Statement, env: Scope)
    requires fuel <= more && EvalStatement(fuel, st, env).0 != Exhausted
    ensures EvalStatement(more, st, env) == EvalStatement(fuel, st, env)
    decreases fuel, st, 0
  {
    match st
    case BindingDef(_, value) =>
      EvalFuelMonotone(fuel, more, value, env);
    case ExprStatement(e) =>
      EvalFuelMonotone(fuel, more, e, env);
  }

  lemma {:induction false} RunFuelMonotone(fuel: nat, more: nat, stmts: seq<Statement>, env: Scope)
    requires fuel <= more && RunStatements(fuel, stmts, env) != Exhausted
    ensures RunStatements(more, stmts, env) == RunStatements(fuel, stmts, env)
    decreases fuel, stmts, 0
  {
    if stmts != [] {
      StatementFuelMonotone(fuel, more, stmts[0], env);
      var (v, next) := EvalStatement(fuel, stmts[0], env);
      if v.Ok? {
        RunFuelMonotone(fuel, more, stmts[1..], next);
      }
    }
  }

  lemma {:induction false} BlockFuelMonotone(fuel: nat, more: nat, stmts: seq<Statement>, env: Scope)
    requires fuel <= more && EvalBlock(fuel, stmts, env) != Exhausted
    ensures EvalBlock(more, stmts, env) == EvalBlock(fuel, stmts, env)
    decreases fuel, stmts, 1
  {
    if stmts != [] {
      var init := stmts[..|stmts| - 1];
      RunFuelMonotone(fuel, more, init, Child(env));
      var inner := RunStatements(fuel, init, Child(env));
      if inner.Ok? {
        StatementFuelMonotone(fuel, more, stmts[|stmts| - 1], inner.value);
      }
    }
  }

  // A scope matters only through what its names resolve to: two scopes that answer every
  // lookup alike give every expression the same value, and statements leave them alike.

  ghost predicate SameLookups(a: Scope, b: Scope) {
    forall name :: Lookup(a, name) == Lookup(b, name)
  }

  /** Two results agree: both succeed with scopes that answer alike, or both fail alike. */
  ghost predicate SameOutcome(ra: Result<Scope>, rb: Result<Scope>) {
    ra.Ok? == rb.Ok? && (ra.Ok? ==> SameLookups(ra.value, rb.value)) && (!ra.Ok? ==> ra == rb)
  }

  lemma {:induction false} EvalRespectsLookups(fuel: nat, e: Expression, a: Scope, b: Scope)
    requires SameLookups(a, b)
    ensures Eval(fuel, e, a) == Eval(fuel, e, b)
    decreases fuel, e, 0
  {
    match e
    case Number(_) =>
    case Operation(lhs, rhs, op) =>
      EvalRespectsLookups(fuel, lhs, a, b);
      EvalRespectsLookups(fuel, rhs, a, b);
    case FuncCall(callee, args) =>
      CallRespectsLookups(fuel, callee, args, a, b);
    case BindingUsage(name) =>
      assert Lookup(a, name) == Lookup(b, name);
    case Block(stmts) =>
      BlockRespectsLookups(fuel, stmts, a, b);
  }

  lemma {:induction false} CallRespectsLookups(fuel: nat, callee: string, args: seq<Expression>, a: Scope, b: Scope)
    requires SameLookups(a, b)
    ensures EvalCall(fuel, callee, args, a) == EvalCall(fuel, callee, args, b)
    decreases fuel, args, 1
  {
    assert Lookup(a, callee) == Lookup(b, callee);
    var f := GetFunc(a, callee);
    if f.Ok? && |f.value.0| == |args| {
      ParamsRespectLookups(fuel, f.value.0, args, Child(a), Child(b));
      var sa := BindParams(fuel, f.value.0, args, Child(a));
      var sb := BindParams(fuel, f.value.0, args, Child(b));
      if sa.Ok? && fuel > 0 {
        StatementRespectsLookups(fuel - 1, f.value.1, sa.value, sb.value);
      }
    }
  }

  lemma {:induction false} ParamsRespectLookups(fuel: nat, params: seq<string>, args: seq<Expression>, a: Scope, b: Scope)
    requires |params| == |args| && SameLookups(a, b)
    ensures SameOutcome(BindParams(fuel, params, args, a), BindParams(fuel, params, args, b))
    decreases fuel, args, 0
  {
    if args != [] {
      EvalRespectsLookups(fuel, args[0], a, b);
      var v := Eval(fuel, args[0], a);
      if v.Ok? {
        ParamsRespectLookups(fuel, params[1..], args[1..], Store(a, params[0], Binding(v.value)), Store(b, params[0], Binding(v.value)));
      }
    }
  }

  lemma {:induction false} StatementRespectsLookups(fuel: nat, st: Statement, a: Scope, b: Scope)
    requires SameLookups(a, b)
    ensures EvalStatement(fuel, st, a).0 == EvalStatement(fuel, st, b).0
    ensures SameLookups(EvalStatement(fuel, st, a).1, EvalStatement(fuel, st, b).1)
    decreases fuel, st, 0
  {
    match st
    case BindingDef(_, value) =>
      EvalRespectsLookups(fuel, value, a, b);
    case ExprStatement(e) =>
      EvalRespectsLookups(fuel, e, a, b);
  }

  lemma {:induction false} RunRespectsLookups(fuel: nat, stmts: seq<Statement>, a: Scope, b: Scope)
    requires SameLookups(a, b)
    ensures SameOutcome(RunStatements(fuel, stmts, a), RunStatements(fuel, stmts, b))
    decreases fuel, stmts, 0
  {
    if stmts != [] {
      StatementRespectsLookups(fuel, stmts[0], a, b);
      var (v, na) := EvalStatement(fuel, stmts[0], a);
      var nb := EvalStatement(fuel, stmts[0], b).1;
      if v.Ok? {
        RunRespectsLookups(fuel, stmts[1..], na, nb);
      }
    }
  }

  lemma {:induction false} BlockRespectsLookups(fuel: nat, stmts: seq<Statement>, a: Scope, b: Scope)
    requires SameLookups(a, b)
    ensures EvalBlock(fuel, stmts, a) == EvalBlock(fuel, stmts, b)
    decreases fuel, stmts, 1
  {
    if stmts != [] {
      var init := stmts[..|stmts| - 1];
      RunRespectsLookups(fuel, init, Child(a), Child(b));
      var ia := RunStatements(fuel, init, Child(a));
      var ib := RunStatements(fuel, init, Child(b));
      if ia.Ok? {
        StatementRespectsLookups(fuel, stmts[|stmts| - 1], ia.value, ib.value);
      }
    }
  }

  /** A block of one statement has that statement's value in the caller's scope: the block's
      child scope hides nothing of its parent. */
  lemma OneStatementBlock(fuel: nat, st: Statement, env: Scope)
    ensures EvalBlock(fuel, [st], env) == EvalStatement(fuel, st, env).0
  {
    StatementRespectsLookups(fuel, st, Child(env), env);
  }

  /** A block that binds a name and then uses it has the bound value, as the caller's scope
      gives it; a failure of the value is the block's failure. */
  lemma BindThenUseBlock(fuel: nat, name: string, value: Expression, env: Scope)
    ensures EvalBlock(fuel, [BindingDef(name, value), ExprStatement(BindingUsage(name))], env)
      == Eval(fuel, value, env)
  {
    var stmts := [BindingDef(name, value), ExprStatement(BindingUsage(name))];
    EvalRespectsLookups(fuel, value, Child(env), env);
    assert stmts[..1] == [BindingDef(name, value)] && [BindingDef(name, value)][1..] == [];
    assert stmts[|stmts| - 1] == ExprStatement(BindingUsage(name));
    var v := Eval(fuel, value, Child(env));
    if v.Ok? {
      var inner := Store(Child(env), name, Binding(v.value));
      assert RunStatements(fuel, stmts[..1], Child(env)) == Ok(inner);
      assert GetBinding(inner, name) == Ok(v.value);
      assert EvalStatement(fuel, ExprStatement(BindingUsage(name)), inner).0 == Ok(v.value);
      assert EvalBlock(fuel, stmts, env) == EvalStatement(fuel, ExprStatement(BindingUsage(name)), inner).0;
    } else {
      assert RunStatements(fuel, stmts[..1], Child(env)) == v.PropagateFailure();
    }
  }
}
