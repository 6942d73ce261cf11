/** The two plain scripts: one loop over the samples, then the estimate.

    simple_monte_carlo.py draws 1,700,000 points and reports
    `(inside / total) * 4`; monte_carlo_simple.py draws 1,000,000 and reports
    `4 * points_inside / total_points`. Here the drawn points are the input
    sequence, so the total is its length. */
module PlainScripts {
  import opened Outcomes
  import opened Sampling
  import opened Estimation

  /** The counting loop both scripts share: one pass, adding one to the
      counter for every inside point. */
  method CountLoop(samples: seq<Point>) returns (inside: int)
    ensures 0 <= inside <= |samples|
    ensures inside == CountInside(samples)
    ensures inside == |InsideIndices(samples)|
  {
    inside := 0;
    var i := 0;
    while i < |samples|
      invariant 0 <= i <= |samples|
      invariant inside == CountInside(samples[..i])
    {
      assert samples[..i + 1][..i] == samples[..i];
      if Inside(samples[i]) {
        inside := inside + 1;
      }
      i := i + 1;
    }
    assert samples[..i] == samples;
    CountIsIndexCount(samples);
  }

  /** simple_monte_carlo.py: count, then `(inside / total) * 4`. */
  method SimpleMonteCarlo(samples: seq<Point>) returns (inside: int, piEstimate: Result<real>)
    ensures 0 <= inside <= |samples| && inside == CountInside(samples)
    ensures piEstimate.Err? <==> |samples| == 0
    ensures piEstimate.Ok? ==> 0.0 <= piEstimate.value <= 4.0
    ensures piEstimate.Ok? ==> piEstimate.value * (|samples| as real) == 4.0 * (inside as real)
    ensures piEstimate.Ok? ==>
      (piEstimate.value == 4.0 <==> forall i :: 0 <= i < |samples| ==> Inside(samples[i]))
    ensures piEstimate.Ok? ==>
      (piEstimate.value == 0.0 <==> forall i :: 0 <= i < |samples| ==> !Inside(samples[i]))
  {
    inside := CountLoop(samples);
    CountAllInside(samples);
    CountNoneInside(samples);
    if |samples| == 0 {
      piEstimate := Err(DivisionByZero);
    } else {
      piEstimate := Ok(ScaledRatio(inside, |samples|));
    }
  }

  /** monte_carlo_simple.py: count, then `4 * points_inside / total_points`;
      the same estimate as simple_monte_carlo.py for the same samples. */
  method MonteCarloSimple(samples: seq<Point>) returns (pointsInside: int, piEstimate: Result<real>)
    ensures 0 <= pointsInside <= |samples| && pointsInside == CountInside(samples)
    ensures piEstimate.Err? <==> |samples| == 0
    ensures piEstimate.Ok? ==> 0.0 <= piEstimate.value <= 4.0
    ensures piEstimate == Estimate(CountInside(samples), |samples|)
  {
    pointsInside := CountLoop(samples);
    if |samples| == 0 {
      piEstimate := Err(DivisionByZero);
    } else {
      piEstimate := Ok(ScaledCount(pointsInside, |samples|));
      ScaledFormsAgree(pointsInside, |samples|);
    }
  }
}
