/** Option and Result: the model's stand-ins for Python's None and for raised exceptions. */
module Base {

  datatype Option<+T> = None | Some(value: T)

  /** A timestamp, taken as a parameter wherever the source reads the clock. */
  type Fecha = nat

  /** Ok carries the value a call returns; Err the exception (or error message) it raises. */
  datatype Result<+T, +E> = Ok(value: T) | Err(error: E)

  /** Sum of a sequence of integers, Python's built-in `sum` (0 for an empty sequence). */
  function Sum(xs: seq<int>): int
  {
    if xs == [] then 0 else Sum(xs[..|xs| - 1]) + xs[|xs| - 1]
  }

  lemma {:induction false} SumAppend(xs: seq<int>, x: int)
    ensures Sum(xs + [x]) == Sum(xs) + x
  {
    assert (xs + [x])[..|xs + [x]| - 1] == xs;
  }

  /** Replacing one element changes the sum by the difference. */
  lemma {:induction false} SumUpdate(xs: seq<int>, j: nat, x: int)
    requires j < |xs|
    ensures Sum(xs[j := x]) == Sum(xs) - xs[j] + x
  {
    var n := |xs| - 1;
    assert xs[j := x][..n] == if j == n then xs[..n] else xs[..n][j := x];
    if j < n {
      SumUpdate(xs[..n], j, x);
    }
  }

  /** The elements of `xs` last first: a table read back under a descending ordering. */
  function Invertida<T>(xs: seq<T>): (r: seq<T>)
    ensures |r| == |xs| && forall i :: 0 <= i < |xs| ==> r[i] == xs[|xs| - 1 - i]
  {
    if xs == [] then [] else [xs[|xs| - 1]] + Invertida(xs[..|xs| - 1])
  }

  lemma {:induction false} SumNonNegative(xs: seq<int>)
    requires forall i :: 0 <= i < |xs| ==> xs[i] >= 0
    ensures Sum(xs) >= 0
  {
    if xs != [] {
      SumNonNegative(xs[..|xs| - 1]);
    }
  }
}
