/** Small shared vocabulary: optional values, and results that may carry an exception. */
module Common {

  /** A value that may be missing: the `Optional[float]` and dictionary lookups of the adapter. */
  datatype Option<+T> = None | Some(value: T)

  /** What made a call raise. */
  datatype Exception =
    | SuiteApiError   // the error the inventory query raises for a failed page
    | OtherError      // a connection error, a timeout, or a body that cannot be read

  /** A returned value, or an exception on its way to the nearest handler. */
  datatype Outcome<+T> = Value(value: T) | Raise(error: Exception) {
    predicate IsFailure() {
      Raise?
    }

    function PropagateFailure<U>(): Outcome<U>
      requires Raise?
    {
      Raise(error)
    }

    function Extract(): T
      requires Value?
    {
      value
    }
  }

  /** Python truthiness of an optional number: present and not zero. */
  predicate Truthy(v: Option<real>) {
    v.Some? && v.value != 0.0
  }

  function MaxInt(a: int, b: int): int {
    if a >= b then a else b
  }

  function MinReal(a: real, b: real): real {
    if a <= b then a else b
  }

  function MaxReal(a: real, b: real): real {
    if a >= b then a else b
  }

  /** Exact ceiling of a real number. */
  function Ceil(x: real): (c: int)
    ensures x <= c as real < x + 1.0
  {
    -((-x).Floor)
  }
}
