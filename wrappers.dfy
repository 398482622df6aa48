/** Option for values that may be absent, Result for computations that may raise. */
module Wrappers {

  datatype Option<+T> = None | Some(value: T)

  /** `Raised` stands for a Python exception escaping the computation; `:-` propagates it. */
  datatype Result<+T> = Ok(value: T) | Raised
  {
    predicate IsFailure() { Raised? }

    function PropagateFailure<U>(): Result<U>
      requires Raised?
    {
      Raised
    }

    function Extract(): T
      requires Ok?
    {
      value
    }
  }
}
