/** Optional values, the model of Python's `None` and of a parse that may fail. */
module Wrappers {

  datatype Option<+T> = None | Some(value: T) {

    predicate IsFailure() {
      None?
    }

    function PropagateFailure<U>(): Option<U>
      requires None?
    {
      None
    }

    function Extract(): T
      requires Some?
    {
      value
    }

    function GetOr(default: T): T {
      if Some? then value else default
    }
  }

  /** How a state-changing step finished: normally with a value, or by raising
      Python's AttributeError (a method such as `lower` or `strip` called on None). */
  datatype Completion<+T> = Normal(value: T) | AttributeErrorRaised
}
