/** Failure-carrying wrappers shared by every module of the model.
    `Option` stands for Python's `Optional[...]` (None or a value);
    `Result` stands for "returns a value or raises", the error being the
    exception's message text. */
module Base {

  datatype Option<+T> = None | Some(value: T)

  datatype Result<+T> = Ok(value: T) | Err(error: string) {

    predicate IsFailure() {
      Err?
    }

    function PropagateFailure<U>(): Result<U>
      requires Err?
    {
      Err(error)
    }

    function Extract(): T
      requires Ok?
    {
      value
    }
  }

  /** Python truthiness of an `Optional[float]`: neither None nor zero. */
  predicate Nonzero(x: Option<real>) {
    x.Some? && x.value != 0.0
  }

  function Min(a: int, b: int): int {
    if a <= b then a else b
  }

  function Abs(x: real): real {
    if x < 0.0 then -x else x
  }
}
