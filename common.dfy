/** Failure-carrying values shared by every component of the trading pipeline. */
module Common {

  datatype Option<+T> = None | Some(value: T)

  /** The outcome of a unit of work that can fail. */
  datatype Result<+T, +E> = Ok(value: T) | Err(error: E)

  function Abs(x: real): real
  {
    if x < 0.0 then -x else x
  }

  /** Multiplying by a non-negative factor keeps the order. */
  lemma MulMonotone(a: real, x: real, y: real)
    requires a >= 0.0 && x <= y
    ensures a * x <= a * y
  {
    assert a * y - a * x == a * (y - x);
  }

  /** A factor between lo and hi scales a by an amount between a * lo and a * hi. */
  lemma MulBetween(a: real, lo: real, x: real, hi: real)
    requires lo <= x <= hi
    ensures a >= 0.0 ==> a * lo <= a * x <= a * hi
    ensures a <= 0.0 ==> a * hi <= a * x <= a * lo
  {
    assert a * x - a * lo == a * (x - lo);
    assert a * hi - a * x == a * (hi - x);
    if a <= 0.0 {
      MulMonotone(-a, lo, x);
      MulMonotone(-a, x, hi);
    } else {
      MulMonotone(a, lo, x);
      MulMonotone(a, x, hi);
    }
  }

  function Min(x: real, y: real): real
  {
    if x <= y then x else y
  }

  function Max(x: real, y: real): real
  {
    if x >= y then x else y
  }
}
