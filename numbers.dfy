/** Arithmetic helpers shared by the feature, monitoring and timing code. */
module Numbers {

  function Min(a: int, b: int): int { if a <= b then a else b }

  function Max(a: int, b: int): int { if a <= b then b else a }

  /** Python's sum() over a list of floats, taken as exact real arithmetic. */
  function Sum(s: seq<real>): (r: real)
    ensures s == [] ==> r == 0.0
    ensures |s| == 1 ==> r == s[0]
  {
    if s == [] then 0.0 else Sum(s[..|s| - 1]) + s[|s| - 1]
  }

  /** The arithmetic mean of a non-empty sample (sum / len). */
  function Mean(s: seq<real>): (r: real)
    requires s != []
    ensures r * (|s| as real) == Sum(s)
  {
    Sum(s) / (|s| as real)
  }

  /** Python's `s[-n:]` for n > 0: the last min(n, |s|) elements, in order. */
  function Last<T>(s: seq<T>, n: nat): (r: seq<T>)
    requires n > 0
    ensures |r| == Min(n, |s|)
    ensures forall i :: 0 <= i < |r| ==> r[i] == s[|s| - |r| + i]
  {
    if |s| <= n then s else s[|s| - n..]
  }

  /** [f(xs[0], ys[0]), ..., f(xs[n - 1], ys[n - 1])]: the first n pairs, in order. */
  function ZipPrefix<X, Y, Z>(f: (X, Y) -> Z, xs: seq<X>, ys: seq<Y>, n: nat): (r: seq<Z>)
    requires n <= |xs| && n <= |ys|
    ensures |r| == n
    ensures forall i :: 0 <= i < n ==> r[i] == f(xs[i], ys[i])
  {
    if n == 0 then [] else ZipPrefix(f, xs, ys, n - 1) + [f(xs[n - 1], ys[n - 1])]
  }

  ghost predicate Within(s: seq<real>, lo: real, hi: real)
  {
    forall i :: 0 <= i < |s| ==> lo <= s[i] <= hi
  }

  lemma {:induction false} SumAppend(s: seq<real>, x: real)
    ensures Sum(s + [x]) == Sum(s) + x
  {
    assert (s + [x])[..|s|] == s;
  }

  /** A sum of n samples within [lo, hi] lies within [n * lo, n * hi]. */
  lemma {:induction false} SumWithin(s: seq<real>, lo: real, hi: real)
    requires Within(s, lo, hi)
    ensures (|s| as real) * lo <= Sum(s) <= (|s| as real) * hi
  {
    if s != [] {
      var init := s[..|s| - 1];
      WithinPrefix(s, lo, hi);
      SumWithin(init, lo, hi);
      assert Sum(s) == Sum(init) + s[|s| - 1];
      StepBounds(|init| as real, |s| as real, lo, hi, Sum(init), s[|s| - 1]);
    }
  }

  lemma WithinPrefix(s: seq<real>, lo: real, hi: real)
    requires s != [] && Within(s, lo, hi)
    ensures Within(s[..|s| - 1], lo, hi) && lo <= s[|s| - 1] <= hi
  {
    var init := s[..|s| - 1];
    forall i | 0 <= i < |init| ensures lo <= init[i] <= hi {
      assert init[i] == s[i];
    }
  }

  /** Adding one sample within [lo, hi] to a sum of n such samples. */
  lemma StepBounds(n: real, m: real, lo: real, hi: real, sum: real, x: real)
    requires m == n + 1.0 && n * lo <= sum <= n * hi && lo <= x <= hi
    ensures m * lo <= sum + x <= m * hi
  {
  }

  /** The mean of samples within [lo, hi] lies within [lo, hi]. */
  lemma MeanWithin(s: seq<real>, lo: real, hi: real)
    requires s != [] && Within(s, lo, hi)
    ensures lo <= Mean(s) <= hi
  {
    SumWithin(s, lo, hi);
    var n, m := |s| as real, Mean(s);
    assert (m - lo) * n == Sum(s) - n * lo;
    assert (hi - m) * n == n * hi - Sum(s);
    FactorSign(m - lo, n);
    FactorSign(hi - m, n);
  }

  /** The mean of two samples is their midpoint. */
  lemma MeanOfTwo(a: real, b: real)
    ensures Mean([a, b]) == (a + b) / 2.0
  {
    assert [a, b][..1] == [a];
    MeanSingleton(a);
  }

  /** A product with a positive factor is non-negative only if the other factor is. */
  lemma FactorSign(a: real, n: real)
    requires n > 0.0 && a * n >= 0.0
    ensures a >= 0.0
  {
  }

  /** The mean of a single sample is that sample. */
  lemma MeanSingleton(x: real)
    ensures Mean([x]) == x
  {
    assert [x][..0] == [];
    assert Sum([x]) == x;
  }
}
