/** The syntax tree of crates/moye (expr.rs, expr/block.rs, expr/func_call.rs, statements.rs)
    and the values that evaluation produces. */
module Syntax {
  import opened Numbers

  datatype Op = Add | Sub | Mul | Div

  /** The character that stands for an operator in the source text. */
  function OpChar(op: Op): char {
    match op
    case Add => '+'
    case Sub => '-'
    case Mul => '*'
    case Div => '/'
  }

  predicate IsOpChar(c: char) {
    c == '+' || c == '-' || c == '*' || c == '/'
  }

  datatype Expression =
    | Number(n: i32)
    | Operation(lhs: Expression, rhs: Expression, op: Op)
    | FuncCall(callee: string, params: seq<Expression>)
    | BindingUsage(name: string)
    | Block(stmts: seq<Statement>)

  datatype Statement =
    | BindingDef(name: string, value: Expression)
    | ExprStatement(expr: Expression)

  datatype Val = Number(n: i32) | Unit

  /** No operand of an operation is itself an operation, anywhere in the tree. */
  predicate UnchainedExpr(e: Expression) {
    match e
    case Number(_) => true
    case Operation(lhs, rhs, _) =>
      !lhs.Operation? && !rhs.Operation? && UnchainedExpr(lhs) && UnchainedExpr(rhs)
    case FuncCall(_, params) => forall i :: 0 <= i < |params| ==> UnchainedExpr(params[i])
    case BindingUsage(_) => true
    case Block(stmts) => forall i :: 0 <= i < |stmts| ==> UnchainedStmt(stmts[i])
  }

  predicate UnchainedStmt(st: Statement) {
    match st
    case BindingDef(_, value) => UnchainedExpr(value)
    case ExprStatement(e) => UnchainedExpr(e)
  }

  /** No function call anywhere in the tree: the only construct that spends fuel. */
  predicate CallFreeExpr(e: Expression) {
    match e
    case Number(_) => true
    case Operation(lhs, rhs, _) => CallFreeExpr(lhs) && CallFreeExpr(rhs)
    case FuncCall(_, _) => false
    case BindingUsage(_) => true
    case Block(stmts) => forall i :: 0 <= i < |stmts| ==> CallFreeStmt(stmts[i])
  }

  predicate CallFreeStmt(st: Statement) {
    match st
    case BindingDef(_, value) => CallFreeExpr(value)
    case ExprStatement(e) => CallFreeExpr(e)
  }
}
