/** JavaScript value conventions the storefront code relies on: fields that may
    be `undefined`, truthiness, and the `||` default idiom. */
module Base {

  /** A value that may be `undefined` or `null`. */
  datatype Option<+T> = None | Some(value: T) {

    /** `x ?? d`: the value when present, the default otherwise. */
    function GetOr(default: T): T {
      match this
      case Some(v) => v
      case None => default
    }
  }

  /** A string is truthy iff it is present and non-empty. */
  predicate StringTruthy(s: Option<string>) {
    s.Some? && s.value != ""
  }

  /** A number is truthy iff it is present and non-zero (NaN is not modelled). */
  predicate IntTruthy(n: Option<int>) {
    n.Some? && n.value != 0
  }

  predicate RealTruthy(x: Option<real>) {
    x.Some? && x.value != 0.0
  }

  /** `a || b` with a definite string `b`. */
  function StringOr(a: Option<string>, b: string): string {
    if StringTruthy(a) then a.value else b
  }

  /** `a || b` with a definite number `b`. */
  function IntOr(a: Option<int>, b: int): int {
    if IntTruthy(a) then a.value else b
  }

  function RealOr(a: Option<real>, b: real): real {
    if RealTruthy(a) then a.value else b
  }
}
