/** Classification of sample points against the unit circle, and the count
    every script accumulates.

    A sample is a point of the square [-1, 1] x [-1, 1]; it counts as inside
    when x*x + y*y <= 1, the boundary included. Randomness is not modelled:
    the points are an input sequence. */
module Sampling {

  datatype Point = Point(x: real, y: real)

  /** x*x + y*y, the quantity every script compares with 1. */
  function SquaredDistance(p: Point): real {
    p.x * p.x + p.y * p.y
  }

  /** The classification rule; the boundary circle counts as inside. */
  predicate Inside(p: Point) {
    SquaredDistance(p) <= 1.0
  }

  /** Number of points of `s` that are inside, accumulated in sample order:
      the value of the counter after the last sample of `s`. */
  function CountInside(s: seq<Point>): (n: nat)
    ensures n <= |s|
  {
    if |s| == 0 then 0
    else CountInside(s[..|s| - 1]) + (if Inside(s[|s| - 1]) then 1 else 0)
  }

  /** The inside points of `s`, in sample order. */
  function InsidePoints(s: seq<Point>): (r: seq<Point>)
    ensures |r| == CountInside(s)
    ensures forall i :: 0 <= i < |r| ==> Inside(r[i])
  {
    if |s| == 0 then []
    else if Inside(s[|s| - 1]) then InsidePoints(s[..|s| - 1]) + [s[|s| - 1]]
    else InsidePoints(s[..|s| - 1])
  }

  /** The outside points of `s`, in sample order. */
  function OutsidePoints(s: seq<Point>): (r: seq<Point>)
    ensures |r| == |s| - CountInside(s)
    ensures forall i :: 0 <= i < |r| ==> !Inside(r[i])
  {
    if |s| == 0 then []
    else if Inside(s[|s| - 1]) then OutsidePoints(s[..|s| - 1])
    else OutsidePoints(s[..|s| - 1]) + [s[|s| - 1]]
  }

  /** Positions of the inside points: an order-free reference for the count. */
  ghost function InsideIndices(s: seq<Point>): set<nat> {
    set i: nat | i < |s| && Inside(s[i])
  }

  /** The boundary policy on the points the scripts' behaviour hinges on:
      the centre and the axis points on the circle are inside, the corner
      (1, 1) is not. */
  lemma BoundaryIsInside()
    ensures Inside(Point(0.0, 0.0))
    ensures Inside(Point(1.0, 0.0)) && Inside(Point(0.0, 1.0))
    ensures Inside(Point(-1.0, 0.0)) && Inside(Point(0.0, -1.0))
    ensures !Inside(Point(1.0, 1.0))
  {
    assert SquaredDistance(Point(1.0, 1.0)) == 2.0;
  }

  /** The count is the number of inside positions, whatever the order of
      accumulation. */
  lemma {:induction false} CountIsIndexCount(s: seq<Point>)
    ensures CountInside(s) == |InsideIndices(s)|
  {
    if |s| > 0 {
      var n := |s| - 1;
      var init := s[..n];
      CountIsIndexCount(init);
      assert forall i :: 0 <= i < n ==> init[i] == s[i];
      if Inside(s[n]) {
        assert InsideIndices(s) == InsideIndices(init) + {n};
      } else {
        assert InsideIndices(s) == InsideIndices(init);
      }
    }
  }

  /** Counting is additive over any split of the samples: two partial
      counts summed equal one pass over the whole sequence. */
  lemma {:induction false} CountAppend(a: seq<Point>, b: seq<Point>)
    ensures CountInside(a + b) == CountInside(a) + CountInside(b)
  {
    if |b| > 0 {
      var n := |b| - 1;
      assert (a + b)[..|a + b| - 1] == a + b[..n];
      assert (a + b)[|a + b| - 1] == b[n];
      CountAppend(a, b[..n]);
    } else {
      assert a + b == a;
    }
  }

  /** Every point inside if and only if the count reaches the number of
      samples. */
  lemma {:induction false} CountAllInside(s: seq<Point>)
    ensures CountInside(s) == |s| <==> forall i :: 0 <= i < |s| ==> Inside(s[i])
  {
    if |s| > 0 {
      var n := |s| - 1;
      CountAllInside(s[..n]);
      assert forall i :: 0 <= i < n ==> s[..n][i] == s[i];
    }
  }

  /** No point inside if and only if the count stays at zero. */
  lemma {:induction false} CountNoneInside(s: seq<Point>)
    ensures CountInside(s) == 0 <==> forall i :: 0 <= i < |s| ==> !Inside(s[i])
  {
    if |s| > 0 {
      var n := |s| - 1;
      CountNoneInside(s[..n]);
      assert forall i :: 0 <= i < n ==> s[..n][i] == s[i];
    }
  }

  /** Across iterations the counter never decreases and rises by at most
      one per sample. */
  lemma CountMonotone(s: seq<Point>, i: nat, j: nat)
    requires i <= j <= |s|
    ensures CountInside(s[..i]) <= CountInside(s[..j]) <= CountInside(s[..i]) + (j - i)
  {
    assert s[..j] == s[..i] + s[i..j];
    CountAppend(s[..i], s[i..j]);
  }

  /** Each sample lands in exactly one of the two partitions. */
  lemma {:induction false} PartitionSizes(s: seq<Point>)
    ensures |InsidePoints(s)| + |OutsidePoints(s)| == |s|
    ensures multiset(InsidePoints(s)) + multiset(OutsidePoints(s)) == multiset(s)
  {
    if |s| > 0 {
      var n := |s| - 1;
      PartitionSizes(s[..n]);
      assert s == s[..n] + [s[n]];
    }
  }
}
