/** The figures derived from a count: the pi estimate, its relative error
    against a reference value of pi, and the reported accuracy.

    Arithmetic is exact over `real`; the scripts use binary floating point.
    The reference value of pi is a positive parameter (monte_carlo_animation.py
    uses numpy's `np.pi`; monte_carlo_with_stats.py uses `float(mp.pi)`,
    mpmath's value rounded to the same double). */
module Estimation {
  import opened Outcomes

  function Abs(r: real): (a: real)
    ensures a >= 0.0 && (a == r || a == -r)
  {
    if r < 0.0 then -r else r
  }

  /** `(inside / total) * 4`: the form used by simple_monte_carlo.py, by
      monte_carlo_with_stats.py and by the animation's statistics. */
  function ScaledRatio(inside: nat, total: nat): (e: real)
    requires total > 0
    ensures e * (total as real) == 4.0 * (inside as real)
    ensures inside <= total ==> 0.0 <= e <= 4.0
    ensures e == 4.0 <==> inside == total
    ensures e == 0.0 <==> inside == 0
  {
    (inside as real / total as real) * 4.0
  }

  /** `4 * points_inside / total_points`: the form used by
      monte_carlo_simple.py. */
  function ScaledCount(inside: nat, total: nat): (e: real)
    requires total > 0
    ensures e * (total as real) == 4.0 * (inside as real)
    ensures inside <= total ==> 0.0 <= e <= 4.0
  {
    4.0 * (inside as real) / (total as real)
  }

  /** Over exact reals the two spellings of the estimate coincide, so the
      two plain scripts report the same estimate for the same samples. */
  lemma ScaledFormsAgree(inside: nat, total: nat)
    requires total > 0
    ensures ScaledRatio(inside, total) == ScaledCount(inside, total)
  {
  }

  /** The estimate as an operation that can fail: Python raises
      ZeroDivisionError when the total is zero. */
  function Estimate(inside: nat, total: nat): (r: Result<real>)
    ensures r.Err? <==> total == 0
    ensures r.Err? ==> r.error == DivisionByZero
    ensures r.Ok? ==> r.value * (total as real) == 4.0 * (inside as real)
  {
    if total == 0 then Err(DivisionByZero) else Ok(ScaledRatio(inside, total))
  }

  /** `abs(estimate - reference) / reference * 100`. */
  function RelativeError(estimate: real, reference: real): (e: real)
    requires reference > 0.0
    ensures e >= 0.0
    ensures e == 0.0 <==> estimate == reference
    ensures e * reference == Abs(estimate - reference) * 100.0
  {
    Abs(estimate - reference) / reference * 100.0
  }

  /** `100 - error`: at most 100, and 100 exactly for a perfect estimate. */
  function Accuracy(estimate: real, reference: real): (a: real)
    requires reference > 0.0
    ensures a <= 100.0
    ensures a == 100.0 <==> estimate == reference
  {
    100.0 - RelativeError(estimate, reference)
  }

  /** The relative error does not change when the estimate and the
      reference are scaled by the same positive factor. */
  lemma RelativeErrorScaleFree(estimate: real, reference: real, k: real)
    requires reference > 0.0 && k > 0.0
    ensures RelativeError(k * estimate, k * reference) == RelativeError(estimate, reference)
  {
  }
}
