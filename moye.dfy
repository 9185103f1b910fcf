/** The crate's entry points, crates/moye/src/lib.rs: `parse` reads one statement that must
    take up the whole input, and `Parse::eval` evaluates it. */
module Moye {
  import opened Results
  import opened Numbers
  import opened Syntax
  import opened Parser
  import opened ParserFacts
  import opened Environment
  import opened Semantics
  import opened Interpreter

  /** `Parse`: a statement read from a whole input. */
  datatype Parsed = Parsed(stmt: Statement)

  const NotConsumedFully := "input was not consumed fully by parser"

  /** `parse`: succeeds exactly when `Statement::new` succeeds and leaves nothing behind;
      a leftover gives `NotConsumedFully`; a failure of `Statement::new` is passed on. */
  function Parse(s: string): (r: Result<Parsed>)
    ensures r.Ok? <==> ParseStatement(s).Ok? && ParseStatement(s).value.0 == []
    ensures r.Ok? ==> r.value.stmt == ParseStatement(s).value.1
    ensures ParseStatement(s).Ok? && ParseStatement(s).value.0 != [] ==> r == Err(NotConsumedFully)
    ensures !ParseStatement(s).Ok? ==> r == ParseStatement(s).PropagateFailure()
  {
    var (rest, stmt) :- ParseStatement(s);
    if rest == [] then Ok(Parsed(stmt)) else Err(NotConsumedFully)
  }

  /** `Parse::eval`: evaluating the wrapped statement in `env`. */
  method EvaluateParsed(fuel: nat, p: Parsed, env: Env) returns (r: Result<Val>)
    requires env.Valid()
    modifies env
    ensures env.Valid()
    ensures (r, env.Model()) == EvalStatement(fuel, p.stmt, old(env.Model()))
  {
    r := ExecuteStatement(fuel, p.stmt, env);
  }

  /** An operation reads one operator only: `a op b op c` with decimal literals leaves
      `op c` unread, so `parse` refuses it. */
  lemma ChainedOperationRejected(a: i32, op1: Op, b: i32, op2: Op, c: i32)
    requires a >= 0 && b >= 0 && c >= 0
    ensures Parse(DecimalString(a) + ([OpChar(op1)] + (DecimalString(b) + ([OpChar(op2)] + DecimalString(c)))))
      == Err(NotConsumedFully)
  {
    var rest := [OpChar(op2)] + DecimalString(c);
    assert !IsAsciiDigit(rest[0]) by { match op2 case Add => case Sub => case Mul => case Div => }
    OperationStatementOfNumbers(a, op1, b, rest);
  }
}
