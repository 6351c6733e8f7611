/** Optional values and results of computations that may divide by zero. */
module Wrappers {

  /** A value that may be absent, as a key missing from a Python dictionary. */
  datatype Option<T> = None | Some(value: T) {

    /** The value, or `default` when absent (Python's `dict.get(key, default)`). */
    function GetOr(default: T): T {
      match this
      case Some(v) => v
      case None => default
    }
  }

  /** The value of a computation, or the ZeroDivisionError Python raises in it. */
  datatype Result<T> = Ok(value: T) | ZeroDivisionError
}

/** Python's `min`, `max` and `abs` on reals. */
module RealMath {

  function Min(a: real, b: real): real {
    if a <= b then a else b
  }

  function Max(a: real, b: real): real {
    if a >= b then a else b
  }

  function Abs(x: real): real {
    if x < 0.0 then -x else x
  }

  /** Multiplying by a non-negative factor keeps the order. */
  lemma MulMonotone(a: real, lo: real, hi: real)
    requires a >= 0.0 && lo <= hi
    ensures a * lo <= a * hi
  {
  }

  /** `x / y if y > 0 else 0`, the guarded division the bot uses for its ratios. */
  function GuardedRatio(x: real, y: real): real {
    if y > 0.0 then x / y else 0.0
  }
}
