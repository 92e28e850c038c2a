/** The pieces of Python's built-in behaviour that the measurement code relies on:
    a value that may be absent, `sum` over a list of numbers, and the open-ended
    slice `s[start:]` with its normalisation of negative and out-of-range starts. */
module PyBuiltins {

  datatype Option<+T> = None | Some(value: T)

  function Min(a: int, b: int): int
  {
    if a <= b then a else b
  }

  /** `sum(xs)`: adds the elements left to right, starting from 0. */
  function Sum(xs: seq<real>): (total: real)
    ensures |xs| == 0 ==> total == 0.0
    ensures |xs| == 1 ==> total == xs[0]
  {
    if |xs| == 0 then 0.0 else Sum(xs[..|xs| - 1]) + xs[|xs| - 1]
  }

  /** Summing a concatenation is summing the parts. */
  lemma {:induction false} SumAppend(xs: seq<real>, ys: seq<real>)
    ensures Sum(xs + ys) == Sum(xs) + Sum(ys)
  {
    if |ys| == 0 {
      assert xs + ys == xs;
    } else {
      var init := ys[..|ys| - 1];
      assert (xs + ys)[..|xs + ys| - 1] == xs + init;
      assert (xs + ys)[|xs + ys| - 1] == ys[|ys| - 1];
      SumAppend(xs, init);
    }
  }

  /** A sum of n values that all lie in [lo, hi] lies in [n * lo, n * hi]. */
  lemma {:induction false} SumBounds(xs: seq<real>, lo: real, hi: real)
    requires forall i :: 0 <= i < |xs| ==> lo <= xs[i] <= hi
    ensures |xs| as real * lo <= Sum(xs) <= |xs| as real * hi
  {
    if |xs| > 0 {
      SumBounds(xs[..|xs| - 1], lo, hi);
    }
  }

  /** A sum of non-negative values is non-negative. */
  lemma {:induction false} SumNonNegative(xs: seq<real>)
    requires forall i :: 0 <= i < |xs| ==> 0.0 <= xs[i]
    ensures 0.0 <= Sum(xs)
  {
    if |xs| > 0 {
      SumNonNegative(xs[..|xs| - 1]);
    }
  }

  /** `s[start:]`: a non-negative start is clipped to the length; a negative start
      counts back from the end and is clipped to 0. The result is always a suffix. */
  function SliceFrom<T>(s: seq<T>, start: int): (r: seq<T>)
    ensures |r| <= |s|
    ensures r == s[|s| - |r|..]
  {
    if start >= 0 then s[Min(start, |s|)..]
    else if start + |s| >= 0 then s[start + |s|..]
    else s
  }

  /** `s[-n:]` for n >= 1 keeps the last min(n, len(s)) elements. */
  lemma SliceFromLast<T>(s: seq<T>, n: int)
    requires n >= 1
    ensures |SliceFrom(s, -n)| == Min(n, |s|)
    ensures SliceFrom(s, -n) == s[|s| - Min(n, |s|)..]
  {
  }

  /** `s[-0:]` is `s[0:]`: the whole sequence, not an empty one. */
  lemma SliceFromZero<T>(s: seq<T>)
    ensures SliceFrom(s, -0) == s
  {
  }
}
