/** Small helpers that several components share. */
module Common {

  datatype Option<+T> = None | Some(value: T)

  function Max(a: real, b: real): real { if a >= b then a else b }

  function Min(a: real, b: real): real { if a <= b then a else b }

  function Abs(a: real): real { if a >= 0.0 then a else -a }

  /** A weighted mean stays between its arguments' bounds. */
  lemma Mix(a: real, b: real, weight: real, lo: real, hi: real)
    requires lo <= a <= hi && lo <= b <= hi && 0.0 <= weight <= 1.0
    ensures lo <= (1.0 - weight) * a + weight * b <= hi
  {
    assert (1.0 - weight) * (a - lo) >= 0.0 && weight * (b - lo) >= 0.0;
    assert (1.0 - weight) * (hi - a) >= 0.0 && weight * (hi - b) >= 0.0;
  }
}
