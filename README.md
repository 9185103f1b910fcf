# moye, modelled in Dafny

moye is a small expression language written in Rust.

- **Parser.** A recursive-descent parser reads source text into statements: binding definitions `let name = expr` and expressions. Expressions are:
  - decimal `i32` literals;
  - single binary operations `a op b` with `op` one of `+ - * /`;
  - function calls `f arg1 arg2 ...`;
  - binding usages `name`;
  - blocks `{ stmt stmt ... }`.

  Function definitions `fun name p1 p2 => body` are parsed by a parser of their own.
- **Evaluator.** It walks the tree in a chain of scopes (`Env`). Each scope maps names to a value or to a function's parameters and body, and refers to its parent. Blocks and calls evaluate in a fresh child scope.
- **Entry points.** `parse` reads one statement that must take up the whole input, and `Parse::eval` evaluates it.
- **First-stage parser.** The repository root also holds an earlier parser (`src/`) that reads `digits operator digits` and panics on anything else.

## Project layout

The model follows the crate's structure:

| file | module | what it holds |
|---|---|---|
| `results.dfy` | `Results` | the `Result` every parser and evaluator function returns |
| `numbers.dfy` | `Numbers` | `i32` as a subset of `int`, decimal digit strings, Rust's truncating `/` |
| `scanners.dfy` | `Scanners` | the scanners of crates/moye/src/utils.rs |
| `syntax.dfy` | `Syntax` | the syntax tree and the values |
| `parser.dfy` | `Parser` | the mutually recursive parsers `Number::new`, `Operations::new`, `Expression::new`, `FuncCall::new`, `Block::new`, `Statement::new` |
| `parser_facts.dfy`, `parser_examples.dfy` | | what the parsers read, and the parser tests of the crate, stated for any names and numbers |
| `func_def.dfy`, `func_def_facts.dfy` | `FuncDefs`, `FuncDefFacts` | `FuncDef::new` and `FuncDef::eval` |
| `environment.dfy` | `Environment` | a `Scope` value standing for a chain of scopes; the mutable `Env` class whose `Model()` is a `Scope`; lookups and stores |
| `semantics.dfy` | `Semantics` | evaluation as functions on scope values |
| `interpreter.dfy` | `Interpreter` | evaluation as the crate does it: methods that update `Env` objects in place, each proved to compute what `Semantics` says |
| `eval_facts.dfy`, `eval_examples.dfy` | | properties of evaluation, and the evaluator tests of the crate |
| `moye.dfy` | `Moye` | crates/moye/src/lib.rs: `parse` and `Parse::eval` |
| `first_stage.dfy` | `FirstStage` | the first-stage parser, src/utils.rs and src/lib.rs |

### The `Result` type

A Rust `Result<T, String>` becomes `Ok(value)` or `Err(msg)`. Two further alternatives stand for ways a call can end without returning:

- **`Panic(reason)`** is a Rust panic. The cases are:
  - `parse().unwrap()` on a digit run above `i32::MAX`;
  - `i32` overflow in `+ - *` (debug build);
  - division by zero;
  - `i32::MIN / -1`.

  No `or_else` or `?` recovers from a panic.
- **`Exhausted`** means the evaluator ran out of the fuel that bounds its recursion through function calls.

`OrElse` gives the second alternative a turn only on `Err`, as Rust's `or_else` does.

## Model

| member | source | states |
|---|---|---|
| Results.OrElse | crates/moye/src/statements.rs:14-16 | the second alternative runs only after an `Err`: a first success or panic is the result, and the result is an `Err` only when both are |
| Numbers.DigitValue | crates/moye/src/expr.rs:19 | a digit character stands for a value below ten, the one whose character it is |
| Numbers.DigitChar | crates/moye/src/expr.rs:19 | every value below ten has a digit character that reads back as it |
| Numbers.DecimalString | crates/moye/src/expr.rs:16-21 | the decimal form of a number is a non-empty digit string that reads back as the number, with no leading zero |
| Numbers.TruncDiv | crates/moye/src/expr.rs:98 | Rust's `/` on integers: the magnitude of the quotient is the floor of the magnitudes, and its sign is the product of the signs |
| Numbers.DigitsValueAppend | crates/moye/src/expr.rs:19 | appending a digit multiplies the value of a digit string by ten and adds the digit |
| Numbers.DigitsValue | crates/moye/src/expr.rs:19 | the value of a digit string is below ten to the power of its length, and a leading zero does not change it |
| Scanners.TakeWhile | crates/moye/src/utils.rs:1-9 | the input splits into an accepted prefix and a remainder that does not start with an accepted character |
| Scanners.TakeWhileUnique | crates/moye/src/utils.rs:1-9 | that split is the only one with these properties, so it is what `take_while` returns |
| Scanners.TakeWhileWithError | crates/moye/src/utils.rs:11-18 | fails with the given message exactly when the first character is not accepted; otherwise it is `take_while` with a non-empty prefix |
| Scanners.ExtractWhitespaces | crates/moye/src/utils.rs:20-24 | takes the maximal run of spaces and newlines; never fails |
| Scanners.ExtractSpaces | crates/moye/src/expr/func_call.rs:13-14 | takes the maximal run of spaces only; a newline stops it |
| Scanners.ExtractWhitespacesWithError | crates/moye/src/utils.rs:26-28 | fails with "expected a space" exactly when the input does not start with a space or newline |
| Scanners.ExtractDigits | crates/moye/src/utils.rs:30-32 | fails with "expected digits" exactly when the input does not start with a digit; otherwise takes the maximal non-empty run of digits |
| Scanners.ExtractIdent | crates/moye/src/utils.rs:34-45 | fails with "expected identifier" exactly when the input does not start with a letter; otherwise takes a letter and the maximal run of letters and digits after it |
| Scanners.Tag | crates/moye/src/utils.rs:47-53 | succeeds exactly when the literal is a prefix, leaving what follows it; otherwise fails with "expected " and the literal |
| Scanners.TagRemovesExactlyTheLiteral | crates/moye/src/utils.rs:47-53 | `tag` removes exactly the literal from any input that starts with it |
| Scanners.Sequence | crates/moye/src/utils.rs:55-68 | items are parsed until the item parser fails, with a separator skipped after each: the result is never an ordinary error, stops where the item parser fails, is a suffix of the input when the item parser consumes input, gives no items and the whole input when the first item fails, and gives no items only when it consumed nothing |
| Scanners.RunSequence | crates/moye/src/utils.rs:55-68 | the `while let` loop of `sequence`, item by item, computes `Sequence` |
| Scanners.NonEmptySequence | crates/moye/src/utils.rs:70-81 | fails with "expected a sequence with more than one item" exactly when the first item does not parse; otherwise it is `sequence` with at least one item |
| Scanners.WhitespaceScannersNarrow | crates/moye/src/utils.rs:20-24 | both whitespace scanners leave a suffix of their input |
| Scanners.ExtractIdentProgresses | crates/moye/src/utils.rs:34-45 | `extract_ident` consumes at least one character when it succeeds, and otherwise returns an ordinary error |
| Scanners.ExtractDigitsExample | crates/moye/src/utils.rs:92-100 | the tests `extract_two_digits` and `do_not_extract_digits_when_input_is_invalid` |
| Scanners.ExtractIdentExample | crates/moye/src/utils.rs:127-135 | the tests `extract_alphanumeric_ident` and `cannot_extract_ident_beginning_with_number` |
| Parser.ParseNumber | crates/moye/src/expr.rs:16-21 | fails with "expected digits" exactly when there is no leading digit; panics exactly when the digit run exceeds `i32::MAX`; otherwise gives the value of the maximal digit run |
| Parser.ParseOp | crates/moye/src/expr.rs:31-39 | succeeds exactly when the first character is an operator, giving that operator; otherwise fails with the last alternative's message, "expected /" |
| Parser.ParseOpIsTagChain | crates/moye/src/expr.rs:31-39 | `ParseOp` equals the chain of four `tag` alternatives joined by `or_else` |
| Parser.ParseOpRoundTrip | crates/moye/src/expr.rs:125-143 | every operator reads back from its own character |
| Parser.ParseExpression | crates/moye/src/expr.rs:51-53 | a success consumes input, and no operand of an operation is itself an operation |
| Parser.ParseNonOperation | crates/moye/src/expr.rs:55-63 | a success consumes input and is never an operation |
| Parser.ParseOperationExpr | crates/moye/src/expr.rs:65-76 | a success consumes input and is an operation on two non-operations |
| Parser.ParseOperationTail | crates/moye/src/expr.rs:67-75 | an operation whose left-hand side is the operand already read |
| Parser.ParseNumberExpr | crates/moye/src/expr.rs:78-80 | fails with an ordinary error exactly when there is no leading digit; on success holds the number `Number::new` reads, and passes on its overflow panic exactly when it panics |
| Parser.ParseBindingUsage | crates/moye/src/expr.rs:58-61 | succeeds exactly when the input starts with a letter; the name is the maximal identifier prefixing the input, so the rest does not start with a letter or digit |
| Parser.ParseFuncCall | crates/moye/src/expr/func_call.rs:11-23 | a call's callee is the maximal identifier at the start of the input, and it has at least one argument; `CallOf` is the converse |
| Parser.ParseExpressionSequence | crates/moye/src/expr/func_call.rs:14 | the argument list never fails with an ordinary error, and is empty only where it consumed nothing |
| Parser.ParseBlock | crates/moye/src/expr/block.rs:12-22 | a block starts with `{`, consumes input, and holds only unchained operations |
| Parser.ParseStatementSequence | crates/moye/src/expr/block.rs:16 | a block body never fails with an ordinary error, and is empty only where it consumed nothing |
| Parser.ParseBindingDef | crates/moye/src/statements.rs:14-15 | a binding definition starts with `let` and binds an identifier |
| Parser.ParseStatement | crates/moye/src/statements.rs:13-17 | a success consumes input and holds only unchained operations |
| ParserFacts.ItemParsersShorten | crates/moye/src/utils.rs:55-68 | the item parsers handed to `sequence` always shorten their input, so its loop ends |
| ParserFacts.ExpressionSequenceIsSequence | crates/moye/src/expr/func_call.rs:14 | the argument list is `sequence(Expression::new, spaces)` |
| ParserFacts.StatementSequenceIsSequence | crates/moye/src/expr/block.rs:16 | the block body is `sequence(Statement::new, extract_whitespaces)` |
| ParserFacts.NumberLiteral | crates/moye/src/expr.rs:16-21 | a non-negative `i32` in decimal reads back as itself, leaving what follows |
| ParserFacts.NonOperationOfNumber | crates/moye/src/expr.rs:55-63 | a decimal literal is read by the first alternative of `new_non_operation` |
| ParserFacts.NumberLiteralOverflow | crates/moye/src/expr.rs:19 | a digit run above `i32::MAX` makes `Number::new` panic |
| ParserFacts.WhitespaceRun | crates/moye/src/utils.rs:20-24 | `extract_whitespaces` takes exactly a whitespace run up to the first character of another kind |
| ParserFacts.NothingToParse | crates/moye/src/expr.rs:55-63 | input starting with none of a digit, a letter or `{` gives an ordinary error for non-operations, expressions and statements |
| ParserFacts.OperationFirst | crates/moye/src/expr.rs:51-53 | `Expression::new` tries the operation first: an ordinary error in the operation's tail gives back the operand alone, and anything else is passed on |
| ParserFacts.NumberExpression | crates/moye/src/expr.rs:51-80 | a decimal literal not followed, after whitespace, by an operator is a number expression |
| ParserFacts.OperationOf | crates/moye/src/expr.rs:65-76 | operand, optional whitespace, operator, optional whitespace and operand make the operation of the two |
| ParserFacts.OperationOfNumbers | crates/moye/src/expr.rs:161-173 | `lhs op rhs` with decimal literals and any whitespace around the operator reads back as that operation (the tests `add_numbers` and `parse_expression_with_whitespace`, for any numbers) |
| ParserFacts.OperationStatementOfNumbers | crates/moye/src/statements.rs:13-17 | `lhs op rhs` is an expression statement, since a digit cannot begin `let` |
| ParserFacts.NonOperationOfName | crates/moye/src/expr.rs:55-63 | a name with no argument after it is not a call, because `non_empty_sequence` refuses an empty argument list; it is a binding usage |
| ParserFacts.NameWithoutArguments | crates/moye/src/expr.rs:51-63 | a name followed by no argument and no operator is a binding usage |
| ParserFacts.BindingDefFirst | crates/moye/src/statements.rs:13-17 | `Statement::new` tries a binding definition first, and falls back to an expression only on an ordinary error |
| ParserFacts.BindingDefOf | crates/moye/src/statements.rs:14-15 | `let`, whitespace, name, `=` and an expression make the binding definition, or carry the expression's failure |
| ParserFacts.BindingStatementOf | crates/moye/src/statements.rs:13-17 | `let name = value` is that binding definition as a whole statement |
| ParserFacts.StatementSequenceStep | crates/moye/src/expr/block.rs:16 | a block body keeps source order: the first statement, then the sequence after the whitespace that follows it |
| ParserFacts.OneStatementSequence | crates/moye/src/expr/block.rs:16 | a statement followed by non-statement input is a one-statement body |
| ParserFacts.BlockOf | crates/moye/src/expr/block.rs:12-22 | `{`, whitespace, a body, whitespace and `}` make a block of the body's statements |
| ParserFacts.BlockIsNonOperation | crates/moye/src/expr.rs:55-63 | input starting with `{` can only be read as a block |
| ParserFacts.SpacedNumbers | crates/moye/src/expr.rs:275-286 | non-empty space-separated literals start with a digit |
| ParserFacts.NumberExpressions | crates/moye/src/expr.rs:275-286 | one number expression per number, in order |
| ParserFacts.NumberArguments | crates/moye/src/expr/func_call.rs:14 | space-separated decimal literals are exactly those number arguments |
| ParserFacts.LastArgument | crates/moye/src/expr/func_call.rs:14 | the argument list ends at the end of input |
| ParserFacts.NumberThenArguments | crates/moye/src/expr/func_call.rs:14 | one number argument, a space, then the remaining arguments |
| ParserFacts.CallOfNumbers | crates/moye/src/expr.rs:275-286 | a name, a space and space-separated literals make a call of that name on those numbers (the tests `parse_func_call` and `parse_func_call_with_one_parameter`, for any name and numbers) |
| ParserFacts.CallOf | crates/moye/src/expr/func_call.rs:11-23 | a name, any run of spaces and a non-empty argument list of any expressions make the call of that name with those arguments |
| ParserExamples.ParseNumberTest | crates/moye/src/expr.rs:116-118 | the test `parse_number` |
| ParserExamples.ParseNumberAsExprTest | crates/moye/src/expr.rs:121-123 | the test `parse_number_as_expr` |
| ParserExamples.ParseOperatorTests | crates/moye/src/expr.rs:126-143 | the tests `parse_addition` through `parse_division` |
| ParserExamples.AddNumbersTest | crates/moye/src/expr.rs:146-158 | the test `add_numbers` |
| ParserExamples.ParseBindingUsageTest | crates/moye/src/expr.rs:224-234 | the test `parse_binding_usage` |
| ParserExamples.ParseEmptyBlockTest | crates/moye/src/expr/block.rs:45-47 | the test `parse_empty_block` |
| ParserExamples.ParseEmptyBlockWithWhitespaceTest | crates/moye/src/expr/block.rs:50-52 | the test `parse_empty_block_with_whitespace` |
| ParserExamples.NumberThenBrace | crates/moye/src/expr/block.rs:55-65 | a number before `}` is a one-statement body that stops at the brace |
| ParserExamples.BlockOfOneNumber | crates/moye/src/expr/block.rs:55-65 | the test `parse_block_with_one_stmt`, for any number |
| ParserExamples.BlockOfOneNumberAsExpression | crates/moye/src/expr.rs:237-247 | the test `parse_block`: as an expression, such a block is the block and not the start of an operation |
| ParserExamples.BindingDefOfNumber | crates/moye/src/statements.rs:36-47 | the test `parse_binding_def`, for any name and number |
| ParserExamples.OperationStatement | crates/moye/src/statements.rs:50-62 | the test `parse_expression`, for any numbers and operator |
| ParserExamples.NameBeforeLineBreak | crates/moye/src/expr/block.rs:68-96 | a name at the end of a line is a binding usage that stops at the line break |
| ParserExamples.NameLine | crates/moye/src/expr/block.rs:68-96 | a last line holding a name gives one statement and stops at `}` |
| ParserExamples.StatementThenSequence | crates/moye/src/expr/block.rs:16 | a statement, whitespace and a body ending at `}` give the statement ahead of the body's statements |
| ParserExamples.BindingToName | crates/moye/src/expr/block.rs:68-96 | `let b = a` at the end of a line binds `b` to the usage of `a` |
| ParserExamples.BindingToNumber | crates/moye/src/expr/block.rs:68-96 | `let a = n` at the end of a line binds `a` to the number |
| ParserExamples.LastTwoLines | crates/moye/src/expr/block.rs:68-96 | the last two lines give their two statements in source order |
| ParserExamples.StatementsOnLines | crates/moye/src/expr/block.rs:68-96 | the three lines give their three statements in source order |
| ParserExamples.BlockOfStatementsOnLines | crates/moye/src/expr/block.rs:68-96 | the test `parse_block_with_multiple_statements`, for any names, number and line breaks |
| FuncDefs.ParseFuncHead | crates/moye/src/func_def.rs:14-19 | fails with "expected fun" without the keyword, with "expected a space" when no whitespace follows it, and with "expected identifier" when no letter follows the whitespace; otherwise succeeds, and the input is `fun`, a whitespace run, the returned name, more whitespace and the returned rest |
| FuncDefs.ParseParams | crates/moye/src/func_def.rs:21-25 | the input is the returned identifiers in order, each followed by its whitespace run (a run between two names is never empty), then the returned rest, which does not start with a letter |
| FuncDefs.ParseFuncDef | crates/moye/src/func_def.rs:13-39 | the head's three errors and "expected =>"; on success the input is `fun`, whitespace, the name, the parameters with their whitespace, `=>`, whitespace and a text whose statement is the body, with the rest left over |
| FuncDefs.EvaluateFuncDef | crates/moye/src/func_def.rs:41-44 | stores the parameters and body under the name in the current scope, replacing any entry there, and always succeeds |
| FuncDefFacts.HeadOf | crates/moye/src/func_def.rs:14-19 | every layout of `fun`, whitespace, a name and whitespace is read as that name, up to what follows |
| FuncDefFacts.ParamLayoutTail | crates/moye/src/func_def.rs:21-25 | dropping the first name of a parameter layout leaves a parameter layout |
| FuncDefFacts.ParamsOf | crates/moye/src/func_def.rs:21-25 | any names separated by any whitespace runs are exactly the parameter list, up to the rest |
| FuncDefFacts.FuncDefOf | crates/moye/src/func_def.rs:13-39 | `fun name params => body`, with any whitespace runs the code accepts, is the definition of that name with those parameters and the body's statement, or carries the body's failure |
| FuncDefFacts.EmptyBlockStatement | crates/moye/src/func_def.rs:53-65 | `{}` is an empty-block statement |
| FuncDefFacts.FuncDefWithNoParamsAndEmptyBody | crates/moye/src/func_def.rs:53-65 | the test `parse_func_def_with_no_params_and_empty_body`, for any name |
| FuncDefFacts.FuncDefWithOneParamAndEmptyBody | crates/moye/src/func_def.rs:68-80 | the test `parse_func_def_with_one_param_and_empty_body`, for any names |
| FuncDefFacts.OperationOfNames | crates/moye/src/expr.rs:65-76 | `a op b` on names is the operation on the two binding usages |
| FuncDefFacts.NameAlone | crates/moye/src/expr.rs:55-63 | a name alone is a binding usage |
| FuncDefFacts.OperationOfNamesStatement | crates/moye/src/statements.rs:13-17 | `a op b` on names is an expression statement |
| FuncDefFacts.FuncDefWithTwoParamsAndOperationBody | crates/moye/src/func_def.rs:83-103 | the test `parse_func_def_with_multiple_params_and_non_empty_body`, for any names and operator |
| Environment.BindingOf | crates/moye/src/env.rs:44-48 | gives the value exactly when the entry found is a binding; otherwise fails with "binding with name ‘…’ does not exist" |
| Environment.FuncOf | crates/moye/src/env.rs:50-54 | gives the parameters and body exactly when the entry found is a function; otherwise fails with "function with name ‘…’ does not exist" |
| Environment.Maps | crates/moye/src/env.rs:5-9 | the chain of entry maps starts with the current scope's |
| Environment.Lookup | crates/moye/src/env.rs:63-68 | finds an entry exactly when some scope of the chain holds the name, and the current scope's own entry first |
| Environment.GetBinding | crates/moye/src/env.rs:44-48 | gives a value exactly when the entry found is a binding, that binding's value; otherwise "binding with name ‘…’ does not exist" |
| Environment.GetFunc | crates/moye/src/env.rs:50-54 | gives parameters and body exactly when the entry found is a function, that function's; otherwise "function with name ‘…’ does not exist" |
| Environment.LookupGivesNearest | crates/moye/src/env.rs:63-68 | an entry a lookup finds is held by some scope of the chain with no nearer scope holding the name |
| Environment.NearestGivesLookup | crates/moye/src/env.rs:63-68 | the entry of the nearest scope holding the name is what a lookup finds |
| Environment.LookupFindsNearest | crates/moye/src/env.rs:63-68 | a lookup gives an entry exactly when it is in the nearest scope of the chain that holds the name |
| Environment.LookupFailsOnlyWhenAbsent | crates/moye/src/env.rs:63-68 | a lookup fails exactly when no scope of the chain holds the name |
| Environment.Store | crates/moye/src/env.rs:36-42 | a store replaces the name's entry in the current scope only, and changes no other name's lookup |
| Environment.Child | crates/moye/src/env.rs:56-61 | a new child has no entries of its own, and answers every lookup as its parent does |
| Environment.DefaultLookupFails | crates/moye/src/env.rs:44-54 | in a default environment both getters fail with their messages |
| Environment.NearerEntryHides | crates/moye/src/env.rs:63-68 | a nearer entry of the other kind hides a binding or function from its getter |
| Environment.StoreInChildLeavesParent | crates/moye/src/env.rs:36-38 | storing into a fresh child object leaves the parent object's scope as it was, and the child answers the stored name with the value and every other name as the parent does |
| Environment.Env.constructor | crates/moye/src/env.rs:5-9 | `Env::default()` denotes the empty scope |
| Environment.Env.CreateChild | crates/moye/src/env.rs:56-61 | `create_child` denotes the child of the parent's scope, and allocates only itself |
| Environment.Env.GetNamedInfo | crates/moye/src/env.rs:63-68 | walking up the parent chain gives `Lookup` of the denoted scope |
| Environment.Env.StoreBinding | crates/moye/src/env.rs:36-38 | updates the current scope's map in place, so that the object denotes `Store` of its old scope |
| Environment.Env.StoreFunc | crates/moye/src/env.rs:40-42 | likewise, for a function entry |
| Semantics.Arith | crates/moye/src/expr.rs:94-99 | `+ - *` give the exact result, or panic when it leaves the `i32` range; `/` panics on a zero divisor and on `MIN / -1`, and otherwise truncates toward zero |
| Semantics.TruncDivInRange | crates/moye/src/expr.rs:98 | apart from `MIN / -1`, a quotient of `i32` values is an `i32` |
| Semantics.QuotientBound | crates/moye/src/expr.rs:98 | a quotient is at most its dividend, and at most half of it for a divisor of two or more |
| Semantics.BindParams | crates/moye/src/expr/func_call.rs:39-42 | binding the arguments changes only the call's own scope, never its parent |
| Semantics.Eval | crates/moye/src/expr.rs:82-107 | an operation that succeeds gives a number; an expression without calls never runs out of fuel; `OperationOutcome` gives the order of an operation's outcomes |
| Semantics.EvalCall | crates/moye/src/expr/func_call.rs:25-45 | a missing function fails with its message; a wrong number of arguments fails with "expected n parameters, got m"; success needs the function and the right count |
| Semantics.EvalStatement | crates/moye/src/statements.rs:19-27 | an expression statement or a failure leaves the scope as it was; a binding definition that succeeds gives `Unit` and binds its name to its value; nothing changes the parent |
| Semantics.RunStatements | crates/moye/src/expr/block.rs:29-32 | running statements changes only the block's own scope, never its parent |
| Semantics.EvalBlock | crates/moye/src/expr/block.rs:24-35 | an empty block is `Unit`, as is one ending in a binding definition that succeeds; a block without calls never runs out of fuel |
| Interpreter.EvaluateExpression | crates/moye/src/expr.rs:82-107 | `Expression::eval` on an `Env` object computes `Eval` of the scope it denotes |
| Interpreter.EvaluateCall | crates/moye/src/expr/func_call.rs:25-45 | `FuncCall::eval`, whose loop binds argument after argument in a child object, computes `EvalCall` |
| Interpreter.ExecuteStatement | crates/moye/src/statements.rs:19-27 | `Statement::eval` gives `EvalStatement`'s value, and leaves the object denoting `EvalStatement`'s scope |
| Interpreter.EvaluateBlock | crates/moye/src/expr/block.rs:24-35 | `Block::eval`, whose loop runs the statements in a child object and stops at the first failure, computes `EvalBlock` |
| EvalFacts.RunStatementsAppend | crates/moye/src/expr/block.rs:29-32 | running `a + b` runs `a`, then `b` in the scope `a` leaves; a failure in `a` ends the run |
| EvalFacts.StatementScope | crates/moye/src/statements.rs:19-27 | only a binding definition whose value evaluates changes the scope: it gives `Unit` and stores the value; anything else leaves the scope as it was |
| EvalFacts.OperationOutcome | crates/moye/src/expr.rs:84-92 | an operation's left operand is evaluated first and its failure is the result; then the right operand's failure; then two values that are not both numbers give "not both numbers", and two numbers the arithmetic result or its panic |
| EvalFacts.BlockStopsAtFailure | crates/moye/src/expr/block.rs:30-32 | the first failing statement's failure is the block's, whatever follows it |
| EvalFacts.BindParamsAppend | crates/moye/src/expr/func_call.rs:39-42 | binding two runs of arguments is binding the first, then the second in the scope the first left |
| EvalFacts.LaterBindingsKeep | crates/moye/src/expr/func_call.rs:39-42 | binding parameters leaves the lookup of every other name as it was |
| EvalFacts.BindParamsSplit | crates/moye/src/expr/func_call.rs:39-42 | binding is sequential at every split point of the argument list |
| EvalFacts.FailingFirstArgument | crates/moye/src/expr/func_call.rs:39-40 | an argument list whose first argument fails ends with that failure |
| EvalFacts.BindingStopsAtFailingArgument | crates/moye/src/expr/func_call.rs:39-42 | the first argument that fails ends the binding with its failure, whatever follows it |
| EvalFacts.CallStopsAtFailingArgument | crates/moye/src/expr/func_call.rs:25-45 | the first argument that fails is the call's outcome; later arguments and the body are not evaluated |
| EvalFacts.ParameterHoldsArgument | crates/moye/src/expr/func_call.rs:39-42 | after a successful binding, each parameter not repeated later holds its argument's value, evaluated in the scope the earlier arguments built |
| EvalFacts.BlockValueIsLast | crates/moye/src/expr/block.rs:24-35 | a block has the value of its last statement, run in the scope that the others built in a child of the caller's scope |
| EvalFacts.BlockEndingInBindingDefIsUnit | crates/moye/src/expr/block.rs:24-35 | a block ending in a binding definition whose value evaluates is `Unit` |
| EvalFacts.EvalFuelMonotone | crates/moye/src/expr.rs:82-107 | a result reached with some fuel stays the same with more |
| EvalFacts.CallFuelMonotone | crates/moye/src/expr/func_call.rs:25-45 | likewise for calls |
| EvalFacts.ParamsFuelMonotone | crates/moye/src/expr/func_call.rs:39-42 | likewise for argument binding |
| EvalFacts.StatementFuelMonotone | crates/moye/src/statements.rs:19-27 | likewise for statements, including the scope they leave |
| EvalFacts.RunFuelMonotone | crates/moye/src/expr/block.rs:29-32 | likewise for statement runs |
| EvalFacts.BlockFuelMonotone | crates/moye/src/expr/block.rs:24-35 | likewise for blocks |
| EvalFacts.EvalRespectsLookups | crates/moye/src/expr.rs:82-107 | evaluation depends only on what the scope's lookups answer |
| EvalFacts.CallRespectsLookups | crates/moye/src/expr/func_call.rs:25-45 | likewise for calls |
| EvalFacts.ParamsRespectLookups | crates/moye/src/expr/func_call.rs:39-42 | likewise for argument binding, whose resulting scopes answer alike |
| EvalFacts.StatementRespectsLookups | crates/moye/src/statements.rs:19-27 | likewise for statements, whose resulting scopes answer alike |
| EvalFacts.RunRespectsLookups | crates/moye/src/expr/block.rs:29-32 | likewise for statement runs |
| EvalFacts.BlockRespectsLookups | crates/moye/src/expr/block.rs:24-35 | likewise for blocks |
| EvalFacts.OneStatementBlock | crates/moye/src/expr/block.rs:24-35 | a one-statement block has that statement's value in the caller's scope |
| EvalFacts.BindThenUseBlock | crates/moye/src/expr/block.rs:24-35 | a block that binds a name and then uses it has the bound value, or the value's failure |
| EvalExamples.OperationTests | crates/moye/src/expr.rs:176-221 | the tests `eval_add`, `eval_subtract`, `eval_multiply` and `eval_division` |
| EvalExamples.NonNumberOperationTest | crates/moye/src/expr.rs:262-272 | the test `eval_non_number_operation` |
| EvalExamples.BindingUsageTest | crates/moye/src/expr.rs:250-259 | the test `eval_binding_usage` |
| EvalExamples.AddCallTest | crates/moye/src/expr.rs:289-313 | the test `eval_func_call` in expr.rs |
| EvalExamples.IdCallTest | crates/moye/src/expr/func_call.rs:69-86 | the test `eval_func_call` in func_call.rs |
| EvalExamples.MissingFunctionMessage | crates/moye/src/expr/func_call.rs:89-99 | the message of the test `eval_non_existent_func_call` |
| EvalExamples.MissingFunctionTest | crates/moye/src/expr/func_call.rs:89-99 | the test `eval_non_existent_func_call` |
| EvalExamples.TooFewMessage | crates/moye/src/expr/func_call.rs:102-125 | the message of the test `eval_func_call_with_too_few_parameters` |
| EvalExamples.TooManyMessage | crates/moye/src/expr/func_call.rs:128-151 | the message of the test `eval_func_call_with_too_many_parameters` |
| EvalExamples.ArityTests | crates/moye/src/expr/func_call.rs:102-151 | the two arity tests |
| EvalExamples.SmallBlockTests | crates/moye/src/expr/block.rs:99-124 | the tests `eval_block`, `eval_empty_block` and `eval_block_with_one_expr` |
| EvalExamples.BindingDefAndUsageBlockTest | crates/moye/src/expr/block.rs:127-143 | the test `eval_block_with_binding_def_and_usage` |
| EvalExamples.BindingDefsBlockTest | crates/moye/src/expr/block.rs:146-167 | the test `eval_block_with_multiple_binding_defs` |
| EvalExamples.ExpressionsBlockTest | crates/moye/src/expr/block.rs:170-186 | the test `eval_block_with_multiple_exprs` |
| EvalExamples.ParentBindingBlockTest | crates/moye/src/expr/block.rs:189-210 | the test `eval_block_using_bindings_from_parent_env` |
| EvalExamples.StatementTests | crates/moye/src/statements.rs:65-82 | the tests `eval_binding_def` and `eval_expr` |
| EvalExamples.ArgumentSeesEarlierParameter | crates/moye/src/expr/func_call.rs:39-42 | arguments are evaluated in the call's own scope after the earlier ones were bound there, so an argument can name an earlier parameter |
| Moye.Parse | crates/moye/src/lib.rs:22-29 | succeeds exactly when `Statement::new` succeeds and leaves nothing; a leftover gives "input was not consumed fully by parser"; a failure of `Statement::new` is passed on |
| Moye.EvaluateParsed | crates/moye/src/lib.rs:16-20 | `Parse::eval` evaluates the wrapped statement in the given environment |
| Moye.ChainedOperationRejected | crates/moye/src/lib.rs:22-29 | `a op b op c` leaves `op c` unread, so `parse` refuses it |
| FirstStage.ExtractOperator | src/utils.rs:1-7 | splits off the leading operator character |
| FirstStage.ExtractSpaceRun | src/utils.rs:19-21 | takes the maximal run of spaces |
| FirstStage.ExtractDigitRun | src/utils.rs:23-25 | takes the maximal, possibly empty, run of digits |
| FirstStage.ExtractIdentOrNothing | src/utils.rs:27-38 | without a leading letter it leaves the input whole and extracts nothing; otherwise it reads an identifier |
| FirstStage.TagOrPanic | src/utils.rs:40-46 | removes exactly the literal |
| FirstStage.ParseNumber | src/lib.rs:6-11 | reads the value of the leading digit run |
| FirstStage.ParseOperation | src/lib.rs:21-33 | reads the operator of the leading character |
| FirstStage.ParseExpression | src/lib.rs:42-49 | consumes input on every success; `ExpressionRoundTrip` pins the number, operator, number it reads |
| FirstStage.DigitRunOfLiteral | src/utils.rs:23-25 | the digit run of a decimal literal is exactly the literal |
| FirstStage.NumberRoundTrip | src/lib.rs:6-11 | a non-negative `i32` in decimal reads back as itself |
| FirstStage.ExpressionRoundTrip | src/lib.rs:42-49 | `lhs op rhs` in decimal reads back as that expression |
| FirstStage.OperationRoundTrip | src/lib.rs:21-33 | an operator character reads back as its operator, leaving what follows it |
| FirstStage.ExpressionOfParts | src/lib.rs:42-49 | `lhs op rhs` reads back, with the text given as its nested parts |
| FirstStage.ParseOnePlusTwo | src/lib.rs:80-93 | the test `add_numbers` |

## Left out

- The command-line front end (crates/cli) is not part of this model. Neither are the other files under src/ (`expr.rs`, `block.rs`, `binding_def.rs`, `statements.rs`): they are drafts that the crate does not use.
- The crate's binding_def.rs, expr/binding_usage.rs and val.rs are not modelled line by line. `Parser.ParseBindingDef`, `Parser.ParseBindingUsage`, `Semantics.EvalStatement` and the `Val` datatype follow the shapes that their uses in statements.rs, expr.rs and expr/block.rs imply:
  - a binding definition is `let`, whitespace, an identifier, optional whitespace, `=`, optional whitespace and an expression; evaluating it stores the value in the current scope;
  - a binding usage is an identifier read by `get_binding`;
  - `Val` is `Number(i32)` or `Unit`.
- `HashMap`, `Box`, `Vec`, lifetimes and cloning are replaced by maps, datatypes and sequences. An `Env`'s parent is a shared reference that is never updated, so it is a `const` field.
- Unbounded recursion through function calls: each evaluation function takes `fuel`, the number of nested calls it may still make. Running out gives `Exhausted`. The model says nothing about programs that recurse forever, which overflow the Rust stack. Code without calls never runs out of fuel (`Semantics.Eval`, `Semantics.EvalBlock`).
- Panics are `Panic` outcomes, with the reason Rust gives. Arithmetic is that of a debug build: there `+ - *` panic on `i32` overflow, where a release build wraps around instead. Division by zero and `i32::MIN / -1` panic in every build.
- The parsers slice strings by characters where the source slices by bytes. The two agree because every literal and class the parsers test for is ASCII.
- `Statement::new` never tries `FuncDef::new`, so a function definition cannot be written in a program. The model follows the code: `FuncDefs` is a standalone parser and evaluator.
- `FuncCall::eval` evaluates each argument in the call's child scope after the earlier arguments were bound there. The model follows the code rather than a reading in which arguments are evaluated in the caller's scope.
- `FuncCall::eval` creates the child scope before it looks the callee up. Creating a scope has no effect on failure, so the model looks up first.
- Parser.ParseOp: a failure always reports "expected /", the message of the last alternative tried, as the code does.
- The parser tests whose literal inputs are long are stated for any names, numbers and line breaks, not for the exact strings:
  - `parse_block_with_one_stmt`, `parse_block`, `parse_binding_def`, `parse_expression`, `parse_func_call`;
  - `parse_func_call_with_one_parameter`, `parse_expression_with_whitespace`, `parse_block_with_multiple_statements`;
  - the `parse_func_def_*` tests.

  Where `Statement::new` could read a name as the keyword `let`, the first name is required not to start with `l`.
- The test `parse_expression` in crates/moye/src/statements.rs writes the operands of an operation without `Box`, so it does not compile as written. The model states what it evidently means, with boxed operands.
- The scanners' own whitespace tests (`extract_newlines_or_spaces`, `extract_spaces`, `do_not_extract_spaces_when_input_does_not_start_with_them`) are covered by the contracts of `ExtractWhitespaces`, `WhitespaceRun` and `ExtractWhitespacesWithError`; they have no example lemmas of their own.
- FirstStage: every input on which the first-stage parser panics is excluded by a precondition. Its only error handling is a panic, so these functions have no error path to model.
- Scanners.Sequence: an item parser that panics or runs out of fuel ends `sequence` with that outcome. Rust aborts on the panic instead, and the result is the same.
- `dbg!` calls and the `Debug`, `Clone` and `PartialEq` derivations are not modelled.
