/** Small helpers on reals and arrays shared by every module. */
module Common {

  function Abs(x: real): real {
    if x < 0.0 then -x else x
  }

  function Min(a: real, b: real): real {
    if a <= b then a else b
  }

  function Max(a: real, b: real): real {
    if a >= b then a else b
  }

  lemma MulNonNegative(a: real, b: real)
    requires 0.0 <= a && 0.0 <= b
    ensures 0.0 <= a * b
  {
  }

  lemma MulPositive(a: real, b: real)
    requires 0.0 < a && 0.0 < b
    ensures 0.0 < a * b
  {
  }

  /** Scaling by a factor in [-1, 1] keeps a value within [-h, h]. */
  lemma ScaleWithin(u: real, h: real)
    requires -1.0 <= u <= 1.0 && 0.0 <= h
    ensures -h <= u * h <= h
    ensures Abs(u * h) <= h
  {
    MulNonNegative(1.0 - u, h);
    MulNonNegative(1.0 + u, h);
  }

  lemma DivTimes(a: real, n: real)
    requires n != 0.0
    ensures (a / n) * n == a
  {
  }

  /** No object appears twice in the array (Instantiate always yields a new one). */
  ghost predicate Distinct<T>(a: array<T>)
    reads a
  {
    forall i, j :: 0 <= i < j < a.Length ==> a[i] != a[j]
  }
}
