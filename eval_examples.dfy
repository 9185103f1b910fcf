/** The evaluator tests of crates/moye, each stated as a lemma about `Semantics`, for any
    fuel that lets the calls in them run. */
module EvalExamples {
  import opened Results
  import opened Numbers
  import opened Syntax
  import opened Environment
  import opened Semantics
  import opened EvalFacts

  function Num(n: i32): Expression {
    Expression.Number(n)
  }

  /** expr.rs `eval_add`, `eval_subtract`, `eval_multiply` and `eval_division`. */
  lemma OperationTests(fuel: nat)
    ensures Eval(fuel, Operation(Num(10), Num(5), Add), EmptyScope) == Ok(Val.Number(15))
    ensures Eval(fuel, Operation(Num(5), Num(2), Sub), EmptyScope) == Ok(Val.Number(3))
    ensures Eval(fuel, Operation(Num(2), Num(3), Mul), EmptyScope) == Ok(Val.Number(6))
    ensures Eval(fuel, Operation(Num(500), Num(50), Div), EmptyScope) == Ok(Val.Number(10))
  {
    var q := Arith(Div, 500, 50);
    assert q.Ok? && Abs(q.value) == 10 && q.value >= 0;
  }

  /** expr.rs `eval_non_number_operation`: `10 + {}` is refused, since `{}` is `Unit`. */
  lemma NonNumberOperationTest(fuel: nat)
    ensures Eval(fuel, Operation(Num(10), Block([]), Add), EmptyScope)
      == Err("cannot evaluate operation whose left-hand side and right-hand side are not both numbers")
  {
    assert Eval(fuel, Block([]), EmptyScope) == Ok(Unit);
  }

  /** expr.rs `eval_binding_usage`: `ten` after `ten` was bound to 10. */
  lemma BindingUsageTest(fuel: nat)
    ensures Eval(fuel, BindingUsage("ten"), Store(EmptyScope, "ten", Binding(Val.Number(10)))) == Ok(Val.Number(10))
  {
  }

  /** The function `add x y => x + y` of expr.rs `eval_func_call`. */
  const AddFunc := Func(["x", "y"], ExprStatement(Operation(BindingUsage("x"), BindingUsage("y"), Add)))

  /** expr.rs `eval_func_call`: `add 2 2` is 4, given one unit of fuel for the call. */
  lemma AddCallTest(fuel: nat)
    requires fuel >= 1
    ensures Eval(fuel, FuncCall("add", [Num(2), Num(2)]), Store(EmptyScope, "add", AddFunc)) == Ok(Val.Number(4))
  {
    var env := Store(EmptyScope, "add", AddFunc);
    var args := [Num(2), Num(2)];
    var s1 := Store(Child(env), "x", Binding(Val.Number(2)));
    var s2 := Store(s1, "y", Binding(Val.Number(2)));
    assert Eval(fuel, Num(2), Child(env)) == Ok(Val.Number(2));
    assert Eval(fuel, Num(2), s1) == Ok(Val.Number(2));
    assert BindParams(fuel, [], [], s2) == Ok(s2);
    assert BindParams(fuel, ["y"], [Num(2)], s1) == Ok(s2) by {
      assert ["y"][1..] == [] && [Num(2)][1..] == [];
    }
    assert BindParams(fuel, ["x", "y"], args, Child(env)) == Ok(s2) by {
      assert ["x", "y"][1..] == ["y"] && args[1..] == [Num(2)];
    }
    assert Eval(fuel - 1, BindingUsage("x"), s2) == Ok(Val.Number(2));
    assert Eval(fuel - 1, BindingUsage("y"), s2) == Ok(Val.Number(2));
    assert EvalStatement(fuel - 1, AddFunc.body, s2).0 == Ok(Val.Number(4));
    assert EvalCall(fuel, "add", args, env) == Ok(Val.Number(4));
  }

  /** func_call.rs `eval_func_call`: `id 10` is 10 for the function `id x => x`. */
  lemma IdCallTest(fuel: nat)
    requires fuel >= 1
    ensures Eval(fuel, FuncCall("id", [Num(10)]), Store(EmptyScope, "id", Func(["x"], ExprStatement(BindingUsage("x")))))
      == Ok(Val.Number(10))
  {
    var env := Store(EmptyScope, "id", Func(["x"], ExprStatement(BindingUsage("x"))));
    var s1 := Store(Child(env), "x", Binding(Val.Number(10)));
    assert Eval(fuel, Num(10), Child(env)) == Ok(Val.Number(10));
    assert BindParams(fuel, [], [], s1) == Ok(s1);
    assert BindParams(fuel, ["x"], [Num(10)], Child(env)) == Ok(s1) by {
      assert ["x"][1..] == [] && [Num(10)][1..] == [];
    }
    assert EvalStatement(fuel - 1, ExprStatement(BindingUsage("x")), s1).0 == Ok(Val.Number(10));
    assert EvalCall(fuel, "id", [Num(10)], env) == Ok(Val.Number(10));
  }

  /** The message of func_call.rs `eval_non_existent_func_call`. */
  lemma MissingFunctionMessage()
    ensures FuncMissing("i_dont_exist") == "function with name ‘i_dont_exist’ does not exist"
  {
  }

  /** func_call.rs `eval_non_existent_func_call`. */
  lemma MissingFunctionTest(fuel: nat)
    ensures Eval(fuel, FuncCall("i_dont_exist", [Num(1)]), EmptyScope)
      == Err("function with name ‘i_dont_exist’ does not exist")
  {
    assert Eval(fuel, FuncCall("i_dont_exist", [Num(1)]), EmptyScope) == Err(FuncMissing("i_dont_exist"));
    MissingFunctionMessage();
  }

  /** The message of func_call.rs `eval_func_call_with_too_few_parameters`. */
  lemma TooFewMessage()
    ensures ArityMessage(2, 1) == "expected 2 parameters, got 1"
  {
    assert DecimalString(1) == "1" && DecimalString(2) == "2";
  }

  /** The message of func_call.rs `eval_func_call_with_too_many_parameters`. */
  lemma TooManyMessage()
    ensures ArityMessage(1, 2) == "expected 1 parameters, got 2"
  {
    assert DecimalString(1) == "1" && DecimalString(2) == "2";
  }

  /** func_call.rs `eval_func_call_with_too_few_parameters` and
      `eval_func_call_with_too_many_parameters`. */
  lemma ArityTests(fuel: nat)
    ensures var mul := Func(["a", "b"], ExprStatement(Operation(BindingUsage("a"), BindingUsage("b"), Mul)));
      Eval(fuel, FuncCall("mul", [Num(100)]), Store(EmptyScope, "mul", mul)) == Err("expected 2 parameters, got 1")
    ensures var square := Func(["n"], ExprStatement(Operation(BindingUsage("n"), BindingUsage("n"), Mul)));
      Eval(fuel, FuncCall("square", [Num(5), Num(42)]), Store(EmptyScope, "square", square))
        == Err("expected 1 parameters, got 2")
  {
    var mul := Func(["a", "b"], ExprStatement(Operation(BindingUsage("a"), BindingUsage("b"), Mul)));
    var square := Func(["n"], ExprStatement(Operation(BindingUsage("n"), BindingUsage("n"), Mul)));
    assert Eval(fuel, FuncCall("mul", [Num(100)]), Store(EmptyScope, "mul", mul)) == Err(ArityMessage(2, 1));
    assert Eval(fuel, FuncCall("square", [Num(5), Num(42)]), Store(EmptyScope, "square", square)) == Err(ArityMessage(1, 2));
    TooFewMessage();
    TooManyMessage();
  }

  /** block.rs `eval_empty_block`, `eval_block` and `eval_block_with_one_expr`. */
  lemma SmallBlockTests(fuel: nat)
    ensures EvalBlock(fuel, [], EmptyScope) == Ok(Unit)
    ensures Eval(fuel, Block([ExprStatement(Num(10))]), EmptyScope) == Ok(Val.Number(10))
    ensures EvalBlock(fuel, [ExprStatement(Num(25))], EmptyScope) == Ok(Val.Number(25))
  {
    OneStatementBlock(fuel, ExprStatement(Num(10)), EmptyScope);
    OneStatementBlock(fuel, ExprStatement(Num(25)), EmptyScope);
  }

  /** block.rs `eval_block_with_binding_def_and_usage`: `{ let one = 1  one }` is 1. */
  lemma BindingDefAndUsageBlockTest(fuel: nat)
    ensures EvalBlock(fuel, [BindingDef("one", Num(1)), ExprStatement(BindingUsage("one"))], EmptyScope)
      == Ok(Val.Number(1))
  {
    BindThenUseBlock(fuel, "one", Num(1), EmptyScope);
  }

  /** block.rs `eval_block_with_multiple_binding_defs`: a block of three binding
      definitions is `Unit`. */
  lemma BindingDefsBlockTest(fuel: nat)
    ensures EvalBlock(fuel, [BindingDef("foo", Num(5)), BindingDef("bar", Num(4)), BindingDef("baz", Num(3))], EmptyScope)
      == Ok(Unit)
  {
    var init := [BindingDef("foo", Num(5)), BindingDef("bar", Num(4))];
    var s1 := Store(Child(EmptyScope), "foo", Binding(Val.Number(5)));
    var s2 := Store(s1, "bar", Binding(Val.Number(4)));
    assert EvalStatement(fuel, BindingDef("foo", Num(5)), Child(EmptyScope)) == (Ok(Unit), s1);
    assert EvalStatement(fuel, BindingDef("bar", Num(4)), s1) == (Ok(Unit), s2);
    assert RunStatements(fuel, [], s2) == Ok(s2);
    assert RunStatements(fuel, [BindingDef("bar", Num(4))], s1) == Ok(s2) by {
      assert [BindingDef("bar", Num(4))][1..] == [];
    }
    assert RunStatements(fuel, init, Child(EmptyScope)) == Ok(s2) by {
      assert init[1..] == [BindingDef("bar", Num(4))];
    }
    assert init + [BindingDef("baz", Num(3))]
      == [BindingDef("foo", Num(5)), BindingDef("bar", Num(4)), BindingDef("baz", Num(3))];
    BlockEndingInBindingDefIsUnit(fuel, init, "baz", Num(3), EmptyScope);
  }

  /** block.rs `eval_block_with_multiple_exprs`: `{ 100  30  10 - 7 }` is 3. */
  lemma ExpressionsBlockTest(fuel: nat)
    ensures EvalBlock(fuel, [ExprStatement(Num(100)), ExprStatement(Num(30)), ExprStatement(Operation(Num(10), Num(7), Sub))], EmptyScope)
      == Ok(Val.Number(3))
  {
    var init := [ExprStatement(Num(100)), ExprStatement(Num(30))];
    var last := ExprStatement(Operation(Num(10), Num(7), Sub));
    var c := Child(EmptyScope);
    assert EvalStatement(fuel, ExprStatement(Num(100)), c) == (Ok(Val.Number(100)), c);
    assert EvalStatement(fuel, ExprStatement(Num(30)), c) == (Ok(Val.Number(30)), c);
    assert Eval(fuel, Operation(Num(10), Num(7), Sub), c) == Ok(Val.Number(3));
    assert EvalStatement(fuel, last, c).0 == Ok(Val.Number(3));
    assert RunStatements(fuel, [], c) == Ok(c);
    assert RunStatements(fuel, [ExprStatement(Num(30))], c) == Ok(c) by {
      assert [ExprStatement(Num(30))][1..] == [];
    }
    assert RunStatements(fuel, init, c) == Ok(c) by {
      assert init[1..] == [ExprStatement(Num(30))];
    }
    assert init + [last] == [ExprStatement(Num(100)), ExprStatement(Num(30)), last];
    BlockValueIsLast(fuel, init, last, EmptyScope);
  }

  /** block.rs `eval_block_using_bindings_from_parent_env`: with `foo` bound to 2 outside,
      `{ let baz = foo  baz }` is 2. */
  lemma ParentBindingBlockTest(fuel: nat)
    ensures EvalBlock(fuel, [BindingDef("baz", BindingUsage("foo")), ExprStatement(BindingUsage("baz"))],
                      Store(EmptyScope, "foo", Binding(Val.Number(2))))
      == Ok(Val.Number(2))
  {
    BindThenUseBlock(fuel, "baz", BindingUsage("foo"), Store(EmptyScope, "foo", Binding(Val.Number(2))));
  }

  /** statements.rs `eval_binding_def` and `eval_expr`. */
  lemma StatementTests(fuel: nat)
    ensures EvalStatement(fuel, BindingDef("whatever", Num(-10)), EmptyScope).0 == Ok(Unit)
    ensures EvalStatement(fuel, ExprStatement(Num(5)), EmptyScope).0 == Ok(Val.Number(5))
  {
  }

  /** `FuncCall::eval` evaluates each argument in the call's own scope after the earlier
      arguments were bound there, so an argument may name an earlier parameter: with
      `f a b => b`, `f n a` is `n` even where `a` is bound to nothing outside. */
  lemma ArgumentSeesEarlierParameter(fuel: nat, f: string, a: string, b: string, n: i32, env: Scope)
    requires fuel >= 1 && a != b
    requires Lookup(env, f) == Some(Func([a, b], ExprStatement(BindingUsage(b))))
    ensures Eval(fuel, FuncCall(f, [Num(n), BindingUsage(a)]), env) == Ok(Val.Number(n))
  {
    var args := [Num(n), BindingUsage(a)];
    var s1 := Store(Child(env), a, Binding(Val.Number(n)));
    var s2 := Store(s1, b, Binding(Val.Number(n)));
    assert Eval(fuel, Num(n), Child(env)) == Ok(Val.Number(n));
    assert Eval(fuel, BindingUsage(a), s1) == Ok(Val.Number(n));
    assert BindParams(fuel, [], [], s2) == Ok(s2);
    assert BindParams(fuel, [b], [BindingUsage(a)], s1) == Ok(s2) by {
      assert [b][1..] == [] && [BindingUsage(a)][1..] == [];
    }
    assert BindParams(fuel, [a, b], args, Child(env)) == Ok(s2) by {
      assert [a, b][1..] == [b] && args[1..] == [BindingUsage(a)];
    }
    assert EvalStatement(fuel - 1, ExprStatement(BindingUsage(b)), s2).0 == Ok(Val.Number(n));
    assert EvalCall(fuel, f, args, env) == Ok(Val.Number(n));
  }
}
