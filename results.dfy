/** Outcomes of the parsers and of the evaluator. */
module Results {

  /** The `Result<T, String>` that every parser and evaluator function returns, widened by
      the two ways a call can end without returning: `Panic` stands for a Rust panic (it
      aborts the process, so no `or_else` and no `?` can recover from it), and `Exhausted`
      says that the evaluator ran out of the fuel that bounds its recursion through calls. */
  datatype Result<+T> = Ok(value: T) | Err(msg: string) | Panic(reason: string) | Exhausted {

    predicate IsFailure() {
      !Ok?
    }

    function PropagateFailure<U>(): Result<U>
      requires !Ok?
    {
      if Err? then Err(msg) else if Panic? then Panic(reason) else Exhausted
    }

    function Extract(): T
      requires Ok?
    {
      value
    }
  }

  /** Rust's `first.or_else(|_| second)`: only an `Err` gives the second alternative a turn. */
  function OrElse<T>(first: Result<T>, second: Result<T>): (r: Result<T>)
    ensures r.Ok? <==> first.Ok? || (first.Err? && second.Ok?)
    ensures r.Err? <==> first.Err? && second.Err?
    ensures r.Panic? <==> first.Panic? || (first.Err? && second.Panic?)
    ensures r.Ok? ==> r == first || r == second
    ensures first.Panic? ==> r == first
  {
    if first.Err? then second else first
  }

  datatype Option<+T> = None | Some(value: T)
}
