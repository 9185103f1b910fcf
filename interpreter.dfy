/** The evaluator as the crate runs it: methods over mutable `Env` objects. `Block::eval`
    and `FuncCall::eval` create a child scope object and update it statement by statement
    or argument by argument; `Statement::eval` updates the scope it is given. Each method is
    proved to compute what the functions of `Semantics` say. */
module Interpreter {
  import opened Results
  import opened Syntax
  import opened Environment
  import opened Semantics

  /** `Expression::eval`: reads `env` and changes no scope that existed before the call. */
  method EvaluateExpression(fuel: nat, e: Expression, env: Env) returns (r: Result<Val>)
    requires env.Valid()
    decreases fuel, e, 0
    ensures r == Eval(fuel, e, env.Model())
  {
    match e
    case Number(n) =>
      r := Ok(Val.Number(n));
    case Operation(lhs, rhs, op) =>
      var l :- EvaluateExpression(fuel, lhs, env);
      var rv :- EvaluateExpression(fuel, rhs, env);
      if l.Number? && rv.Number? {
        var n :- Arith(op, l.n, rv.n);
        r := Ok(Val.Number(n));
      } else {
        r := Err(NotBothNumbers);
      }
    case FuncCall(callee, args) =>
      r := EvaluateCall(fuel, callee, args, env);
    case BindingUsage(name) =>
      r := BindingOf(env.GetNamedInfo(name), name);
    case Block(stmts) =>
      r := EvaluateBlock(fuel, stmts, env);
  }

  /** `FuncCall::eval`. The arguments are evaluated in the child scope and bound there one
      by one, so a later argument sees the earlier parameters. */
  method EvaluateCall(fuel: nat, callee: string, args: seq<Expression>, env: Env) returns (r: Result<Val>)
    requires env.Valid()
    decreases fuel, args, 1
    ensures r == EvalCall(fuel, callee, args, env.Model())
  {
    var f :- FuncOf(env.GetNamedInfo(callee), callee);
    var (params, body) := f;
    if |params| != |args| {
      return Err(ArityMessage(|params|, |args|));
    }
    var child := new Env.CreateChild(env);
    var i := 0;
    while i < |args|
      invariant 0 <= i <= |args|
      invariant child.Valid() && fresh(child.Repr - env.Repr) && child.parent == env
      invariant BindParams(fuel, params, args, Child(env.Model()))
                == BindParams(fuel, params[i..], args[i..], child.Model())
    {
      assert args[i..][0] == args[i] && args[i..][1..] == args[i + 1..];
      assert params[i..][0] == params[i] && params[i..][1..] == params[i + 1..];
      var v :- EvaluateExpression(fuel, args[i], child);
      child.StoreBinding(params[i], v);
      i := i + 1;
    }
    assert args[i..] == [];
    if fuel == 0 {
      return Exhausted;
    }
    var result := ExecuteStatement(fuel - 1, body, child);
    r := result;
  }

  /** `Statement::eval`: a binding definition stores into `env` itself. */
  method ExecuteStatement(fuel: nat, st: Statement, env: Env) returns (r: Result<Val>)
    requires env.Valid()
    modifies env
    decreases fuel, st, 0
    ensures env.Valid()
    ensures (r, env.Model()) == EvalStatement(fuel, st, old(env.Model()))
  {
    match st
    case BindingDef(name, value) =>
      var v := EvaluateExpression(fuel, value, env);
      if v.Ok? {
        env.StoreBinding(name, v.value);
        r := Ok(Unit);
      } else {
        r := v;
      }
    case ExprStatement(e) =>
      r := EvaluateExpression(fuel, e, env);
  }

  /** `Block::eval`: every statement but the last runs in one child scope, stopping at the
      first failure; the last gives the value. */
  method EvaluateBlock(fuel: nat, stmts: seq<Statement>, env: Env) returns (r: Result<Val>)
    requires env.Valid()
    decreases fuel, stmts, 1
    ensures r == EvalBlock(fuel, stmts, env.Model())
  {
    if stmts == [] {
      return Ok(Unit);
    }
    var child := new Env.CreateChild(env);
    var init := stmts[..|stmts| - 1];
    var i := 0;
    while i < |init|
      invariant 0 <= i <= |init|
      invariant child.Valid() && fresh(child.Repr - env.Repr) && child.parent == env
      invariant RunStatements(fuel, init, Child(env.Model())) == RunStatements(fuel, init[i..], child.Model())
    {
      assert init[i..][0] == init[i] && init[i..][1..] == init[i + 1..];
      var v := ExecuteStatement(fuel, init[i], child);
      if !v.Ok? {
        return v.PropagateFailure();
      }
      i := i + 1;
    }
    assert init[i..] == [];
    r := ExecuteStatement(fuel, stmts[|stmts| - 1], child);
  }
}
