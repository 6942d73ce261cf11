/** animation.py: the per-frame state machine behind the animated plot.

    The state is the four coordinate lists, the inside counter and the
    running flag. Every call of `update` while running classifies one point and
    appends it to exactly one list pair; a close event stops the machine
    for good. Drawing is not modelled. */
module Animation {
  import opened Sampling

  datatype Canvas = Canvas(
    insideX: seq<real>,
    insideY: seq<real>,
    outsideX: seq<real>,
    outsideY: seq<real>,
    insideCircle: int,
    running: bool)

  /** Empty lists, zero count, running. */
  const Initial := Canvas([], [], [], [], 0, true)

  /** The counter matches the inside lists and each list pair has one
      x and one y per point. */
  ghost predicate Valid(c: Canvas) {
    && c.insideCircle == |c.insideX| == |c.insideY|
    && |c.outsideX| == |c.outsideY|
  }

  /** Points drawn so far: `len(inside_x + outside_x)`. */
  function StoredPoints(c: Canvas): nat {
    |c.insideX + c.outsideX|
  }

  /** One call of `update` with the point `p` as the random draw. */
  function Update(c: Canvas, p: Point): (r: Canvas)
    ensures r.running == c.running
  {
    if !c.running then c
    else if SquaredDistance(p) <= 1.0 then
      c.(insideX := c.insideX + [p.x], insideY := c.insideY + [p.y],
         insideCircle := c.insideCircle + 1)
    else
      c.(outsideX := c.outsideX + [p.x], outsideY := c.outsideY + [p.y])
  }

  /** The close handler. */
  function OnClose(c: Canvas): (r: Canvas)
    ensures !r.running
    ensures r.(running := c.running) == c
  {
    c.(running := false)
  }

  /** Successive calls of `update`, one point each (the initial draw's
      call included). */
  function Run(c: Canvas, points: seq<Point>): (r: Canvas)
    ensures r.running == c.running
  {
    if |points| == 0 then c
    else Update(Run(c, points[..|points| - 1]), points[|points| - 1])
  }

  /** A stopped machine ignores every frame. */
  lemma UpdateWhenStopped(c: Canvas, p: Point)
    requires !c.running
    ensures Update(c, p) == c
  {
  }

  /** A running frame appends the point to the inside pair when it is
      inside and to the outside pair otherwise, never to both, and
      nothing else changes. */
  lemma UpdateAppendsToOnePair(c: Canvas, p: Point)
    requires c.running
    ensures var r := Update(c, p);
      && (Inside(p) <==> r.insideX == c.insideX + [p.x] && r.insideY == c.insideY + [p.y])
      && (Inside(p) <==> r.outsideX == c.outsideX && r.outsideY == c.outsideY)
      && (!Inside(p) <==> r.outsideX == c.outsideX + [p.x] && r.outsideY == c.outsideY + [p.y])
      && (!Inside(p) <==> r.insideX == c.insideX && r.insideY == c.insideY)
      && r.insideCircle == c.insideCircle + (if Inside(p) then 1 else 0)
  {
  }

  /** Every frame keeps the counter and the list pairs consistent, and a
      running frame stores exactly one more point. */
  lemma UpdatePreservesValid(c: Canvas, p: Point)
    requires Valid(c)
    ensures Valid(Update(c, p))
    ensures StoredPoints(Update(c, p)) == StoredPoints(c) + (if c.running then 1 else 0)
  {
  }

  lemma InitialIsValid()
    ensures Valid(Initial) && Initial.running && StoredPoints(Initial) == 0
  {
  }

  /** The x-coordinates of a sequence of points. */
  function Xs(s: seq<Point>): (r: seq<real>)
    ensures |r| == |s|
    ensures forall i :: 0 <= i < |s| ==> r[i] == s[i].x
  {
    seq(|s|, i requires 0 <= i < |s| => s[i].x)
  }

  /** The y-coordinates of a sequence of points. */
  function Ys(s: seq<Point>): (r: seq<real>)
    ensures |r| == |s|
    ensures forall i :: 0 <= i < |s| ==> r[i] == s[i].y
  {
    seq(|s|, i requires 0 <= i < |s| => s[i].y)
  }

  lemma CoordinatesAppend(s: seq<Point>, p: Point)
    ensures Xs(s + [p]) == Xs(s) + [p.x] && Ys(s + [p]) == Ys(s) + [p.y]
  {
  }

  /** Uninterrupted frames from the initial state agree with the plain
      counting loop: the counter is the number of inside points, the lists
      hold exactly the inside and the outside points in frame order, and
      one point is stored per frame. */
  lemma {:induction false} RunFromInitial(points: seq<Point>)
    ensures var r := Run(Initial, points);
      && Valid(r)
      && r.insideCircle == CountInside(points)
      && r.insideX == Xs(InsidePoints(points)) && r.insideY == Ys(InsidePoints(points))
      && r.outsideX == Xs(OutsidePoints(points)) && r.outsideY == Ys(OutsidePoints(points))
      && StoredPoints(r) == |points|
  {
    if |points| > 0 {
      var n := |points| - 1;
      RunFromInitial(points[..n]);
      CoordinatesAppend(InsidePoints(points[..n]), points[n]);
      CoordinatesAppend(OutsidePoints(points[..n]), points[n]);
    }
  }

  /** After a close, any number of further frames changes nothing. */
  lemma {:induction false} ClosedRunIsNoop(c: Canvas, points: seq<Point>)
    ensures Run(OnClose(c), points) == OnClose(c)
  {
    if |points| > 0 {
      ClosedRunIsNoop(c, points[..|points| - 1]);
    }
  }

  /** Any run from a consistent state stays consistent and stores one
      point per frame while running. */
  lemma {:induction false} RunPreservesValid(c: Canvas, points: seq<Point>)
    requires Valid(c)
    ensures Valid(Run(c, points))
    ensures StoredPoints(Run(c, points)) == StoredPoints(c) + (if c.running then |points| else 0)
  {
    if |points| > 0 {
      var n := |points| - 1;
      RunPreservesValid(c, points[..n]);
      UpdatePreservesValid(Run(c, points[..n]), points[n]);
    }
  }
}
