/**
 * The numeric test of a purchase: numpy.mean and numpy.std (the population
 * standard deviation) of the neighbourhood's amounts, and the comparison
 * amount > mean + 3 * std.  Amounts are exact reals here; the comparison is
 * stated without a square root, as (amount - mean) > 0 and
 * (amount - mean)^2 > 9 * variance, which is the same condition (see
 * ExceedsIsThreeSigma).
 */
module Statistics {

  function Sum(xs: seq<real>): real
  {
    if xs == [] then 0.0 else xs[0] + Sum(xs[1..])
  }

  /** numpy.mean of a non-empty list. */
  function Mean(xs: seq<real>): real
    requires xs != []
  {
    Sum(xs) / (|xs| as real)
  }

  /** The sum of squared deviations of xs from m. */
  function SqDev(xs: seq<real>, m: real): real
  {
    if xs == [] then 0.0 else (xs[0] - m) * (xs[0] - m) + SqDev(xs[1..], m)
  }

  /** The square of numpy.std of a non-empty list (ddof = 0). */
  function Variance(xs: seq<real>): real
    requires xs != []
  {
    SqDev(xs, Mean(xs)) / (|xs| as real)
  }

  /**
   * amount > mean + 3 * std.  numpy gives nan for the mean and the standard
   * deviation of an empty list, and a comparison with nan is false, so an
   * empty neighbourhood never flags.
   */
  predicate Exceeds(amount: real, xs: seq<real>)
  {
    && xs != []
    && amount - Mean(xs) > 0.0
    && (amount - Mean(xs)) * (amount - Mean(xs)) > 9.0 * Variance(xs)
  }

  lemma MulNonNegative(x: real, y: real)
    requires x >= 0.0 && y >= 0.0
    ensures x * y >= 0.0
  {
  }

  lemma MulPositive(x: real, y: real)
    requires x > 0.0 && y > 0.0
    ensures x * y > 0.0
  {
  }

  lemma SquareNonNegative(z: real)
    ensures z * z >= 0.0
  {
  }

  lemma {:induction false} SqDevNonNegative(xs: seq<real>, m: real)
    ensures SqDev(xs, m) >= 0.0
  {
    if xs != [] {
      SquareNonNegative(xs[0] - m);
      SqDevNonNegative(xs[1..], m);
    }
  }

  lemma VarianceNonNegative(xs: seq<real>)
    requires xs != []
    ensures Variance(xs) >= 0.0
  {
    SqDevNonNegative(xs, Mean(xs));
  }

  lemma DivCancel(n: real, y: real)
    requires n > 0.0
    ensures (n * y) / n == y
  {
  }

  lemma SquareMonotone(a: real, s: real)
    requires s >= 0.0
    ensures a > s ==> a * a > s * s
    ensures 0.0 < a <= s ==> a * a <= s * s
  {
    if a > s {
      MulPositive(a - s, a + s);
      assert (a - s) * (a + s) > 0.0;
      assert a * a - s * s == (a - s) * (a + s);
      assert a * a - s * s > 0.0;
    } else if a > 0.0 {
      MulNonNegative(s - a, a + s);
      assert (s - a) * (a + s) >= 0.0;
      assert s * s - a * a == (s - a) * (a + s);
      assert s * s - a * a >= 0.0;
    }
  }

  /**
   * For the standard deviation sd (the non-negative root of the variance),
   * Exceeds is exactly the test amount > mean + 3 * sd.
   */
  lemma ExceedsIsThreeSigma(amount: real, xs: seq<real>, sd: real)
    requires xs != [] && sd >= 0.0 && sd * sd == Variance(xs)
    ensures Exceeds(amount, xs) <==> amount > Mean(xs) + 3.0 * sd
  {
    assert (3.0 * sd) * (3.0 * sd) == 9.0 * Variance(xs);
    SquareMonotone(amount - Mean(xs), 3.0 * sd);
  }

  lemma {:induction false} SumConstant(xs: seq<real>, y: real)
    requires forall i :: 0 <= i < |xs| ==> xs[i] == y
    ensures Sum(xs) == (|xs| as real) * y
  {
    if xs != [] {
      SumConstant(xs[1..], y);
    }
  }

  lemma {:induction false} SqDevAtConstant(xs: seq<real>, y: real)
    requires forall i :: 0 <= i < |xs| ==> xs[i] == y
    ensures SqDev(xs, y) == 0.0
  {
    if xs != [] {
      SqDevAtConstant(xs[1..], y);
    }
  }

  /**
   * When every neighbourhood amount is y, the standard deviation is 0 and a
   * purchase is flagged exactly when its amount is above y.
   */
  lemma ExceedsConstant(amount: real, xs: seq<real>, y: real)
    requires xs != []
    requires forall i :: 0 <= i < |xs| ==> xs[i] == y
    ensures Mean(xs) == y && Variance(xs) == 0.0
    ensures Exceeds(amount, xs) <==> amount > y
  {
    var n := |xs| as real;
    SumConstant(xs, y);
    DivCancel(n, y);
    SqDevAtConstant(xs, y);
    ExceedsIsThreeSigma(amount, xs, 0.0);
  }

  /** A single neighbourhood amount y is enough to flag any amount above y. */
  lemma ExceedsOneAmount(amount: real, y: real)
    ensures Exceeds(amount, [y]) <==> amount > y
  {
    ExceedsConstant(amount, [y], y);
  }

  /**
   * The test is a threshold on the amount: a flagged amount is above the
   * mean, and any larger amount against the same neighbourhood is flagged
   * too.
   */
  lemma ExceedsMonotone(amount: real, larger: real, xs: seq<real>)
    requires Exceeds(amount, xs) && amount <= larger
    ensures amount > Mean(xs)
    ensures Exceeds(larger, xs)
  {
    SquareMonotone(amount - Mean(xs), larger - Mean(xs));
  }

  /**
   * Two neighbourhood amounts 20 and 10: the mean is 15, the standard
   * deviation 5, and exactly the amounts above 30 are flagged.
   */
  lemma TwoAmounts(amount: real)
    ensures Mean([20.0, 10.0]) == 15.0 && Variance([20.0, 10.0]) == 25.0
    ensures Exceeds(amount, [20.0, 10.0]) <==> amount > 30.0
  {
    var xs := [20.0, 10.0];
    assert xs[1..] == [10.0] && xs[1..][1..] == [];
    assert Sum(xs) == 30.0;
    assert SqDev(xs, 15.0) == 50.0;
    ExceedsIsThreeSigma(amount, xs, 5.0);
  }
}
