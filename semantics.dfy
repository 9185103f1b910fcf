/** What evaluation means, as functions on scope values: `Expression::eval` (expr.rs),
    `Block::eval` (expr/block.rs), `FuncCall::eval` (expr/func_call.rs) and `Statement::eval`
    (statements.rs). Calls may recurse without bound, so every function takes `fuel`, the
    number of nested calls it may still make; running out yields `Exhausted`. */
module Semantics {
  import opened Results
  import opened Numbers
  import opened Syntax
  import opened Environment

  const NotBothNumbers :=
    "cannot evaluate operation whose left-hand side and right-hand side are not both numbers"

  /** The message of a call whose argument count differs from the parameter count. */
  function ArityMessage(expected: nat, actual: nat): string {
    "expected " + DecimalString(expected) + " parameters, got " + DecimalString(actual)
  }

  /** Rust's `i32` operators in a debug build: an out-of-range result or a zero divisor
      panics; `/` truncates toward zero. */
  function Arith(op: Op, a: i32, b: i32): (r: Result<i32>)
    ensures r.Ok? || r.Panic?
    ensures op.Add? ==> (r.Ok? <==> InI32(a + b)) && (r.Ok? ==> r.value == a + b)
    ensures op.Sub? ==> (r.Ok? <==> InI32(a - b)) && (r.Ok? ==> r.value == a - b)
    ensures op.Mul? ==> (r.Ok? <==> InI32(a * b)) && (r.Ok? ==> r.value == a * b)
    ensures op.Div? ==> (r.Ok? <==> b != 0 && !(a == MinI32 && b == -1))
    ensures op.Div? && r.Ok? ==>
      Abs(r.value) == Abs(a) / Abs(b) && (r.value != 0 ==> (r.value < 0 <==> (a < 0) != (b < 0)))
  {
    match op
    case Add => if InI32(a + b) then Ok(a + b) else Panic("attempt to add with overflow")
    case Sub => if InI32(a - b) then Ok(a - b) else Panic("attempt to subtract with overflow")
    case Mul => if InI32(a * b) then Ok(a * b) else Panic("attempt to multiply with overflow")
    case Div =>
      if b == 0 then Panic("attempt to divide by zero")
      else if a == MinI32 && b == -1 then Panic("attempt to divide with overflow")
      else
        var q := TruncDiv(a, b);
        assert InI32(q) by { TruncDivInRange(a, b); }
        Ok(q)
  }

  /** Apart from `MinI32 / -1`, a quotient of `i32` values is an `i32`. */
  lemma TruncDivInRange(a: i32, b: i32)
    requires b != 0 && !(a == MinI32 && b == -1)
    ensures InI32(TruncDiv(a, b))
  {
    var q := TruncDiv(a, b);
    QuotientBound(Abs(a), Abs(b));
    assert InI32(a);
    assert Abs(a) <= -MinI32;
    assert Abs(q) <= Abs(a);
    if a == MinI32 && b < 0 {
      assert Abs(b) >= 2;
      assert Abs(q) <= MaxI32;
    } else if a == MinI32 {
      assert q <= 0;
    } else {
      assert Abs(a) <= MaxI32;
    }
  }

  /** A quotient is at most its dividend, and at most half of it for a divisor of 2 or more. */
  lemma QuotientBound(n: nat, d: nat)
    requires d >= 1
    ensures n / d <= n
    ensures d >= 2 ==> 2 * (n / d) <= n
  {
    var q := n / d;
    assert q * d <= n;
    assert q * d == q + q * (d - 1);
    if d >= 2 {
      assert q * (d - 1) >= q;
    }
  }

  /** `Expression::eval`. */
  function Eval(fuel: nat, e: Expression, env: Scope): (r: Result<Val>)
    decreases fuel, e, 0
    ensures r.Ok? && e.Operation? ==> r.value.Number?
    ensures CallFreeExpr(e) ==> !r.Exhausted?
  {
    match e
    case Number(n) => Ok(Val.Number(n))
    case Operation(lhs, rhs, op) =>
      var l :- Eval(fuel, lhs, env);
      var r :- Eval(fuel, rhs, env);
      if l.Number? && r.Number? then
        var n :- Arith(op, l.n, r.n);
        Ok(Val.Number(n))
      else Err(NotBothNumbers)
    case FuncCall(callee, args) => EvalCall(fuel, callee, args, env)
    case BindingUsage(name) => GetBinding(env, name)
    case Block(stmts) => EvalBlock(fuel, stmts, env)
  }

  /** `FuncCall::eval`: find the function, check the argument count, bind the arguments in a
      child of the caller's scope, and run the body there. */
  function EvalCall(fuel: nat, callee: string, args: seq<Expression>, env: Scope): (r: Result<Val>)
    decreases fuel, args, 1
    ensures GetFunc(env, callee).Err? ==> r == Err(FuncMissing(callee))
    ensures GetFunc(env, callee).Ok? && |GetFunc(env, callee).value.0| != |args| ==>
      r == Err(ArityMessage(|GetFunc(env, callee).value.0|, |args|))
    ensures r.Ok? ==> fuel >= 1 && GetFunc(env, callee).Ok? && |GetFunc(env, callee).value.0| == |args|
  {
    var f :- GetFunc(env, callee);
    if |f.0| != |args| then Err(ArityMessage(|f.0|, |args|))
    else
      var callScope :- BindParams(fuel, f.0, args, Child(env));
      if fuel == 0 then Exhausted else EvalStatement(fuel - 1, f.1, callScope).0
  }

  /** The argument loop of `FuncCall::eval`: each argument is evaluated in the scope built
      so far and bound to its parameter straight away. */
  function BindParams(fuel: nat, params: seq<string>, args: seq<Expression>, env: Scope): (r: Result<Scope>)
    requires |params| == |args|
    decreases fuel, args, 0
    ensures r.Ok? ==> r.value.parent == env.parent
  {
    if args == [] then Ok(env)
    else
      var v :- Eval(fuel, args[0], env);
      BindParams(fuel, params[1..], args[1..], Store(env, params[0], Binding(v)))
  }

  /** `Statement::eval`: the statement's value and the scope after it. Only a binding
      definition changes the scope, and only its own entries. */
  function EvalStatement(fuel: nat, st: Statement, env: Scope): (r: (Result<Val>, Scope))
    decreases fuel, st, 0
    ensures r.1.parent == env.parent
    ensures st.ExprStatement? || !r.0.Ok? ==> r.1 == env
    ensures st.BindingDef? && r.0.Ok? ==>
      r.0 == Ok(Unit) && GetBinding(r.1, st.name) == Eval(fuel, st.value, env)
    ensures CallFreeStmt(st) ==> !r.0.Exhausted?
  {
    match st
    case BindingDef(name, value) =>
      var v := Eval(fuel, value, env);
      if v.Ok? then (Ok(Unit), Store(env, name, Binding(v.value))) else (v, env)
    case ExprStatement(e) => (Eval(fuel, e, env), env)
  }

  /** Run statements in order in one scope, stopping at the first that fails. */
  function RunStatements(fuel: nat, stmts: seq<Statement>, env: Scope): (r: Result<Scope>)
    decreases fuel, stmts, 0
    ensures r.Ok? ==> r.value.parent == env.parent
    ensures (forall i :: 0 <= i < |stmts| ==> CallFreeStmt(stmts[i])) ==> !r.Exhausted?
  {
    if stmts == [] then Ok(env)
    else
      var (v, next) := EvalStatement(fuel, stmts[0], env);
      if v.Ok? then RunStatements(fuel, stmts[1..], next) else v.PropagateFailure()
  }

  /** `Block::eval`: an empty block is `Unit`; otherwise all statements run in one child of
      the caller's scope and the last one gives the value. */
  function EvalBlock(fuel: nat, stmts: seq<Statement>, env: Scope): (r: Result<Val>)
    decreases fuel, stmts, 1
    ensures stmts == [] ==> r == Ok(Unit)
    ensures stmts != [] && stmts[|stmts| - 1].BindingDef? && r.Ok? ==> r.value == Unit
    ensures (forall i :: 0 <= i < |stmts| ==> CallFreeStmt(stmts[i])) ==> !r.Exhausted?
  {
    if stmts == [] then Ok(Unit)
    else
      var inner :- RunStatements(fuel, stmts[..|stmts| - 1], Child(env));
      EvalStatement(fuel, stmts[|stmts| - 1], inner).0
  }
}
