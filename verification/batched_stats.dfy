/** monte_carlo_with_stats.py: points drawn in equal batches, each batch
    adding the number of its points whose squared distance is at most 1,
    followed by a report of derived figures.

    Each batch is given as a sequence of points (numpy's two coordinate
    arrays, paired by index). The reference pi is a positive parameter. */
module BatchedStats {
  import opened Sampling
  import opened Estimation

  const Total: nat := 1700000
  const BatchSize: nat := 100000
  const Radius: real := 1.0

  /** `total // batch_size`: the number of whole batches that fit. */
  function NumBatches(total: nat, batchSize: nat): (n: nat)
    requires batchSize > 0
    ensures n * batchSize <= total < (n + 1) * batchSize
  {
    total / batchSize
  }

  /** With the shipped configuration the batches cover the total exactly,
      so the report's divisor is the number of points actually drawn. */
  lemma ShippedBatchesCoverTotal()
    ensures NumBatches(Total, BatchSize) == 17
    ensures NumBatches(Total, BatchSize) * BatchSize == Total
  {
  }

  /** All batches, one after another. */
  function Flatten(batches: seq<seq<Point>>): (s: seq<Point>)
  {
    if |batches| == 0 then [] else Flatten(batches[..|batches| - 1]) + batches[|batches| - 1]
  }

  ghost predicate Uniform(batches: seq<seq<Point>>, batchSize: nat) {
    forall b :: 0 <= b < |batches| ==> |batches[b]| == batchSize
  }

  lemma {:induction false} FlattenLength(batches: seq<seq<Point>>, batchSize: nat)
    requires Uniform(batches, batchSize)
    ensures |Flatten(batches)| == |batches| * batchSize
  {
    if |batches| > 0 {
      FlattenLength(batches[..|batches| - 1], batchSize);
    }
  }

  /** `distances <= 1`: the boolean mask numpy builds for a batch. */
  function DistanceMask(batch: seq<Point>): (m: seq<bool>)
    ensures |m| == |batch|
    ensures forall i :: 0 <= i < |batch| ==> (m[i] <==> Inside(batch[i]))
  {
    seq(|batch|, i requires 0 <= i < |batch| => SquaredDistance(batch[i]) <= 1.0)
  }

  /** `np.sum` of a boolean mask: the number of true entries. */
  function TrueCount(m: seq<bool>): (n: nat)
    ensures n <= |m|
  {
    if |m| == 0 then 0 else TrueCount(m[..|m| - 1]) + (if m[|m| - 1] then 1 else 0)
  }

  /** The vectorised count of a batch equals the per-point count. */
  lemma {:induction false} MaskSumIsCount(batch: seq<Point>)
    ensures TrueCount(DistanceMask(batch)) == CountInside(batch)
  {
    if |batch| > 0 {
      var n := |batch| - 1;
      MaskSumIsCount(batch[..n]);
      assert DistanceMask(batch)[..n] == DistanceMask(batch[..n]);
    }
  }

  /** The batched loop. Its result is the count over all batches taken as
      one sequence: batching does not change the count. */
  method BatchedCount(batches: seq<seq<Point>>, total: nat, batchSize: nat) returns (inside: int)
    requires batchSize > 0
    requires |batches| == NumBatches(total, batchSize)
    requires Uniform(batches, batchSize)
    ensures inside == CountInside(Flatten(batches))
    ensures 0 <= inside <= |batches| * batchSize <= total
  {
    inside := 0;
    var b := 0;
    while b < |batches|
      invariant 0 <= b <= |batches|
      invariant inside == CountInside(Flatten(batches[..b]))
    {
      assert batches[..b + 1][..b] == batches[..b];
      MaskSumIsCount(batches[b]);
      CountAppend(Flatten(batches[..b]), batches[b]);
      inside := inside + TrueCount(DistanceMask(batches[b]));
      b := b + 1;
    }
    assert batches[..b] == batches;
    FlattenLength(batches, batchSize);
  }

  /** The figures the script reports. */
  datatype Report = Report(
    pointsUsed: nat,
    pointsInside: nat,
    piEstimate: real,
    error: real,
    accuracy: real,
    estimatedCircleArea: real,
    actualCircleArea: real,
    squareArea: real,
    pointsRatio: real,
    theoreticalRatio: real,
    ratioError: real)

  /** The report for `inside` of `total` points against reference `actualPi`. */
  function MakeReport(inside: nat, total: nat, actualPi: real): (r: Report)
    requires total > 0 && actualPi > 0.0
    ensures r.pointsUsed == total && r.pointsInside == inside
    ensures inside <= total ==> 0.0 <= r.piEstimate <= 4.0
    ensures r.piEstimate * (total as real) == 4.0 * (inside as real)
    ensures r.piEstimate == 4.0 * r.pointsRatio
    ensures actualPi == 4.0 * r.theoreticalRatio
    ensures r.error == RelativeError(r.piEstimate, actualPi)
    ensures r.accuracy == Accuracy(r.piEstimate, actualPi)
    ensures r.ratioError == r.error
    ensures r.accuracy <= 100.0 && (r.accuracy == 100.0 <==> r.piEstimate == actualPi)
    ensures r.estimatedCircleArea == r.piEstimate && r.actualCircleArea == actualPi
    ensures r.squareArea == 4.0
  {
    var piEstimate := ScaledRatio(inside, total);
    var error := RelativeError(piEstimate, actualPi);
    var pointsRatio := inside as real / total as real;
    var theoreticalRatio := actualPi / 4.0;
    RelativeErrorScaleFree(pointsRatio, theoreticalRatio, 4.0);
    Report(
      total, inside, piEstimate, error, 100.0 - error,
      piEstimate * Radius * Radius, actualPi * Radius * Radius,
      (2.0 * Radius) * (2.0 * Radius),
      pointsRatio, theoreticalRatio,
      RelativeError(pointsRatio, theoreticalRatio))
  }

  /** The whole script: the batched loop, then the report of the count. */
  method StatsRun(batches: seq<seq<Point>>, total: nat, batchSize: nat, actualPi: real)
    returns (inside: int, report: Report)
    requires total > 0 && batchSize > 0 && actualPi > 0.0
    requires |batches| == NumBatches(total, batchSize)
    requires Uniform(batches, batchSize)
    ensures inside == CountInside(Flatten(batches))
    ensures 0 <= inside <= |batches| * batchSize <= total
    ensures report == MakeReport(inside, total, actualPi)
    ensures report.pointsInside == inside && report.pointsUsed == total
    ensures 0.0 <= report.piEstimate <= 4.0
    ensures report.ratioError == report.error
    ensures report.accuracy <= 100.0 && (report.accuracy == 100.0 <==> report.piEstimate == actualPi)
  {
    inside := BatchedCount(batches, total, batchSize);
    var count: nat := inside;
    assert count <= |batches| * batchSize <= total;
    report := MakeReport(count, total, actualPi);
  }
}
