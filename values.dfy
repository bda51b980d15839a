/** Basic value types shared by the model: C++ doubles with NaN, and
    failure-carrying results for code that throws. */
module Values {

  /** A C++ `double` of the component: either a real number or NaN.
      `base::unset<T>()` and `base::NaN<T>()` both yield NaN, and
      `base::isUnset(x)` is true exactly for NaN. Infinities are not modelled. */
  datatype Double = NaN | Num(x: real) {
    /** `!base::isUnset(this)` */
    predicate IsSet() { Num? }
  }

  /** C++ `a < b` on doubles: false as soon as one side is NaN. */
  predicate Less(a: Double, b: Double) {
    a.Num? && b.Num? && a.x < b.x
  }

  /** C++ `a <= b` on doubles: false as soon as one side is NaN. */
  predicate LessEq(a: Double, b: Double) {
    a.Num? && b.Num? && a.x <= b.x
  }

  /** A check that either passes or fails with an error (a `void` function that may throw). */
  datatype Outcome<E> = Pass | Fail(error: E)

  /** A value or the error that was thrown instead of returning it. */
  datatype Result<T, E> = Ok(value: T) | Err(error: E)

  datatype Option<T> = None | Some(value: T)
}
