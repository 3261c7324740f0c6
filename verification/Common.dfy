/** Vocabulary shared by the whole model. */
module Common {

  datatype Option<+T> = None | Some(value: T)

  /** A call that either returns or raises a domain error. An error leaves the
      stored state as it was: the unit of work is not committed. */
  datatype Result<+T> = Ok(value: T) | Raised {
    predicate IsFailure() { Raised? }

    function PropagateFailure<U>(): Result<U>
      requires Raised?
    {
      Raised
    }

    function Extract(): T
      requires Ok?
    {
      value
    }
  }

  /** The deterministic validation stages, in the order they are run. */
  datatype Stage = Build | Test | StaticAnalysis

  function Bit(b: bool): nat { if b then 1 else 0 }
}
