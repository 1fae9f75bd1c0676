/**
 * Population statistics over a window of real samples. This is what the
 * classifier obtains from `np.var`: the mean of the squared deviations from
 * the mean, divided by the number of samples (not by n - 1).
 */
module Statistics {

  function Sum(s: seq<real>): real {
    if s == [] then 0.0 else s[0] + Sum(s[1..])
  }

  function Mean(s: seq<real>): real
    requires |s| > 0
  {
    Sum(s) / (|s| as real)
  }

  /** Sum of squared deviations of the samples from `m`. */
  function SquaredDeviations(s: seq<real>, m: real): (r: real)
    ensures r >= 0.0
  {
    if s == [] then 0.0
    else
      var d := s[0] - m;
      assert d * d >= 0.0;
      d * d + SquaredDeviations(s[1..], m)
  }

  /** Population variance, as `np.var` with its default `ddof=0`. */
  function Variance(s: seq<real>): (r: real)
    requires |s| > 0
    ensures r >= 0.0
  {
    SquaredDeviations(s, Mean(s)) / (|s| as real)
  }

  /** Every sample of `s` moved by the same offset `c`. */
  function Shift(s: seq<real>, c: real): (r: seq<real>)
    ensures |r| == |s|
    ensures forall i :: 0 <= i < |s| ==> r[i] == s[i] + c
  {
    if s == [] then [] else [s[0] + c] + Shift(s[1..], c)
  }

  predicate Constant(s: seq<real>) {
    forall i, j :: 0 <= i < |s| && 0 <= j < |s| ==> s[i] == s[j]
  }

  lemma {:induction false} SumShift(s: seq<real>, c: real)
    ensures Sum(Shift(s, c)) == Sum(s) + (|s| as real) * c
  {
    if s != [] {
      SumShift(s[1..], c);
      assert Shift(s, c)[1..] == Shift(s[1..], c);
    }
  }

  lemma {:induction false} SquaredDeviationsShift(s: seq<real>, m: real, c: real)
    ensures SquaredDeviations(Shift(s, c), m + c) == SquaredDeviations(s, m)
  {
    if s != [] {
      SquaredDeviationsShift(s[1..], m, c);
      assert Shift(s, c)[1..] == Shift(s[1..], c);
    }
  }

  lemma MeanShift(s: seq<real>, c: real)
    requires |s| > 0
    ensures Mean(Shift(s, c)) == Mean(s) + c
  {
    SumShift(s, c);
    ShiftedQuotient(Sum(s), c, |s| as real);
  }

  lemma ShiftedQuotient(a: real, c: real, n: real)
    requires n > 0.0
    ensures (a + n * c) / n == a / n + c
  {
    var q := a / n;
    assert q * n == a;
    assert (q + c) * n == q * n + c * n;
    QuotientOfProduct(a + n * c, q + c, n);
  }

  lemma QuotientOfProduct(x: real, y: real, n: real)
    requires n != 0.0 && x == y * n
    ensures x / n == y
  {
  }

  /**
   * A constant offset on an axis (gravity, for a sensor at rest in any
   * orientation) does not change that axis's variance.
   */
  lemma VarianceShiftInvariant(s: seq<real>, c: real)
    requires |s| > 0
    ensures Variance(Shift(s, c)) == Variance(s)
  {
    MeanShift(s, c);
    SquaredDeviationsShift(s, Mean(s), c);
  }

  lemma {:induction false} SumConstant(s: seq<real>, c: real)
    requires forall i :: 0 <= i < |s| ==> s[i] == c
    ensures Sum(s) == (|s| as real) * c
  {
    if s != [] {
      SumConstant(s[1..], c);
    }
  }

  lemma {:induction false} SquaredDeviationsAtConstant(s: seq<real>, c: real)
    requires forall i :: 0 <= i < |s| ==> s[i] == c
    ensures SquaredDeviations(s, c) == 0.0
  {
    if s != [] {
      SquaredDeviationsAtConstant(s[1..], c);
    }
  }

  /** A window of identical samples has variance zero. */
  lemma ConstantHasZeroVariance(s: seq<real>)
    requires |s| > 0 && Constant(s)
    ensures Variance(s) == 0.0
  {
    var c := s[0];
    SumConstant(s, c);
    assert Mean(s) == c;
    SquaredDeviationsAtConstant(s, c);
  }

  /** `s` alternates between `a` (at even positions) and `b` (at odd ones). */
  predicate Alternating(s: seq<real>, a: real, b: real) {
    forall i :: 0 <= i < |s| ==> s[i] == (if i % 2 == 0 then a else b)
  }

  lemma {:induction false} SumAlternating(s: seq<real>, a: real, b: real)
    requires Alternating(s, a, b) && |s| % 2 == 0
    ensures Sum(s) == ((|s| / 2) as real) * (a + b)
  {
    if s != [] {
      var rest := s[2..];
      forall i | 0 <= i < |rest| ensures rest[i] == (if i % 2 == 0 then a else b) {
        assert rest[i] == s[i + 2];
      }
      SumAlternating(rest, a, b);
      assert s[1..][1..] == rest;
      assert Sum(s) == a + (b + Sum(rest));
      var k := |s| / 2;
      assert |rest| / 2 == k - 1;
      assert ((k - 1) as real) * (a + b) + (a + b) == (k as real) * (a + b);
    }
  }

  /** Samples that all lie the same squared distance `q` from `m`. */
  lemma {:induction false} SquaredDeviationsUniform(s: seq<real>, m: real, q: real)
    requires forall i :: 0 <= i < |s| ==> (s[i] - m) * (s[i] - m) == q
    ensures SquaredDeviations(s, m) == (|s| as real) * q
  {
    if s != [] {
      var rest := s[1..];
      forall i | 0 <= i < |rest| ensures (rest[i] - m) * (rest[i] - m) == q {
        assert rest[i] == s[i + 1];
      }
      SquaredDeviationsUniform(rest, m, q);
      assert (s[0] - m) * (s[0] - m) == q;
      assert ((|rest|) as real) * q + q == (|s| as real) * q;
    }
  }

  /**
   * A window that alternates between two values `d` apart (an even number
   * of samples) has variance d²/4: each sample lies d/2 from the mean.
   */
  lemma AlternatingVariance(s: seq<real>, a: real, d: real)
    requires |s| > 0 && |s| % 2 == 0 && Alternating(s, a, a + d)
    ensures Variance(s) == d * d / 4.0
  {
    var n := |s| as real;
    var k := (|s| / 2) as real;
    SumAlternating(s, a, a + d);
    var m := a + d / 2.0;
    assert n == 2.0 * k;
    assert Sum(s) == m * n by {
      assert k * (a + (a + d)) == (2.0 * k) * (a + d / 2.0);
    }
    QuotientOfProduct(Sum(s), m, n);
    var h := d / 2.0;
    var q := h * h;
    forall i | 0 <= i < |s| ensures (s[i] - m) * (s[i] - m) == q {
      if i % 2 == 0 {
        assert s[i] - m == -h;
        assert (-h) * (-h) == h * h;
      } else {
        assert s[i] - m == h;
      }
    }
    SquaredDeviationsUniform(s, m, q);
    QuotientOfProduct(n * q, q, n);
    assert q == d * d / 4.0;
  }

  lemma SquareStrictlyMonotone(x: real, y: real)
    requires 0.0 <= x < y
    ensures x * x < y * y
  {
    ProductPositive(y - x, y + x);
    assert y * y - x * x == (y - x) * (y + x);
  }

  lemma ProductPositive(u: real, v: real)
    requires u > 0.0 && v > 0.0
    ensures u * v > 0.0
  {
  }

  /**
   * Movement intensity grows strictly with the swing: of two alternating
   * windows of the same even length, the one with the larger step has the
   * larger variance.
   */
  lemma AlternatingVarianceGrows(s: seq<real>, t: seq<real>, a: real, b: real, d: real, e: real)
    requires |s| > 0 && |s| % 2 == 0 && |t| == |s|
    requires Alternating(s, a, a + d) && Alternating(t, b, b + e)
    requires 0.0 <= d < e
    ensures Variance(s) < Variance(t)
  {
    AlternatingVariance(s, a, d);
    AlternatingVariance(t, b, e);
    SquareStrictlyMonotone(d, e);
  }
}
