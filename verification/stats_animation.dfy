/** monte_carlo_animation.py: the same frame state machine as animation.py,
    plus a statistics window refreshed on every tenth frame number.

    The statistics window is modelled by the last figures it shows (none
    before the first refresh). The reference pi (numpy's constant) is a
    positive parameter. */
module StatsAnimation {
  import opened Outcomes
  import opened Sampling
  import opened Estimation
  import Animation

  /** The figures the statistics window shows. */
  datatype StatsView = StatsView(pointsInside: int, totalPoints: nat, piEstimate: real, accuracy: real)

  datatype Window = Window(canvas: Animation.Canvas, stats: Option<StatsView>)

  const Initial := Window(Animation.Initial, None)

  /** Shown figures describe some non-empty, consistent sample. */
  ghost predicate ViewConsistent(v: StatsView, referencePi: real)
    requires referencePi > 0.0
  {
    && 0 < v.pointsInside <= v.totalPoints
    && v.piEstimate * (v.totalPoints as real) == 4.0 * (v.pointsInside as real)
    && 0.0 < v.piEstimate <= 4.0
    && v.accuracy == Accuracy(v.piEstimate, referencePi)
  }

  ghost predicate Valid(w: Window, referencePi: real)
    requires referencePi > 0.0
  {
    && Animation.Valid(w.canvas)
    && (w.stats.Some? ==> ViewConsistent(w.stats.value, referencePi))
  }

  /** `update_stats`: nothing while no point is inside; otherwise the
      window shows the current count, total, estimate and accuracy. */
  function UpdateStats(w: Window, referencePi: real): (r: Window)
    requires Animation.Valid(w.canvas) && referencePi > 0.0
    ensures r.canvas == w.canvas
    ensures w.canvas.insideCircle == 0 ==> r.stats == w.stats
    ensures w.canvas.insideCircle != 0 ==>
      && r.stats.Some?
      && r.stats.value.pointsInside == w.canvas.insideCircle
      && r.stats.value.totalPoints == Animation.StoredPoints(w.canvas)
      && ViewConsistent(r.stats.value, referencePi)
      && r.stats.value.accuracy <= 100.0
  {
    if w.canvas.insideCircle == 0 then w
    else
      var total := Animation.StoredPoints(w.canvas);
      var piEstimate := ScaledRatio(w.canvas.insideCircle, total);
      w.(stats := Some(StatsView(w.canvas.insideCircle, total, piEstimate, Accuracy(piEstimate, referencePi))))
  }

  /** `update(frame)` with the point `p` as the random draw. */
  function Update(w: Window, frame: nat, p: Point, referencePi: real): (r: Window)
    requires Animation.Valid(w.canvas) && referencePi > 0.0
    ensures !w.canvas.running ==> r == w
    ensures r.canvas == Animation.Update(w.canvas, p)
    ensures frame % 10 != 0 ==> r.stats == w.stats
    ensures Valid(w, referencePi) ==> Valid(r, referencePi)
  {
    if !w.canvas.running then w
    else
      Animation.UpdatePreservesValid(w.canvas, p);
      var w' := w.(canvas := Animation.Update(w.canvas, p));
      if frame % 10 == 0 then UpdateStats(w', referencePi) else w'
  }

  /** `on_close`. */
  function OnClose(w: Window): (r: Window)
    ensures !r.canvas.running
    ensures r.stats == w.stats
    ensures r.canvas == Animation.OnClose(w.canvas)
  {
    w.(canvas := Animation.OnClose(w.canvas))
  }

  /** Successive `update` calls: call k passes frame number `frames[k]`
      and draws `points[k]`. The frame numbers are whatever matplotlib
      passes, so extra `update(0)` calls from its initial draw or from a
      window resize are covered. */
  function Run(w: Window, frames: seq<nat>, points: seq<Point>, referencePi: real): (r: Window)
    requires |frames| == |points|
    requires Animation.Valid(w.canvas) && referencePi > 0.0
    ensures Animation.Valid(r.canvas)
  {
    if |points| == 0 then w
    else
      var n := |points| - 1;
      var before := Run(w, frames[..n], points[..n], referencePi);
      Update(before, frames[n], points[n], referencePi)
  }

  /** The statistics window never influences the point lists: the canvas
      after a run is the canvas animation.py would reach. */
  lemma {:induction false} RunCanvas(w: Window, frames: seq<nat>, points: seq<Point>, referencePi: real)
    requires |frames| == |points|
    requires Animation.Valid(w.canvas) && referencePi > 0.0
    ensures Run(w, frames, points, referencePi).canvas == Animation.Run(w.canvas, points)
  {
    if |points| > 0 {
      var n := |points| - 1;
      RunCanvas(w, frames[..n], points[..n], referencePi);
    }
  }

  /** Runs keep shown figures consistent. */
  lemma {:induction false} RunPreservesValid(w: Window, frames: seq<nat>, points: seq<Point>, referencePi: real)
    requires |frames| == |points|
    requires referencePi > 0.0 && Valid(w, referencePi)
    ensures Valid(Run(w, frames, points, referencePi), referencePi)
  {
    if |points| > 0 {
      var n := |points| - 1;
      RunPreservesValid(w, frames[..n], points[..n], referencePi);
    }
  }

  /** After a close, further calls change neither the lists nor the shown
      figures. */
  lemma {:induction false} ClosedRunIsNoop(w: Window, frames: seq<nat>, points: seq<Point>, referencePi: real)
    requires |frames| == |points|
    requires Animation.Valid(w.canvas) && referencePi > 0.0
    ensures Run(OnClose(w), frames, points, referencePi) == OnClose(w)
  {
    if |points| > 0 {
      var n := |points| - 1;
      ClosedRunIsNoop(w, frames[..n], points[..n], referencePi);
    }
  }

  /** From the initial state the counter equals the number of inside
      points among the calls so far, and one point is stored per call. */
  lemma RunFromInitialCounts(frames: seq<nat>, points: seq<Point>, referencePi: real)
    requires |frames| == |points|
    requires referencePi > 0.0
    ensures Run(Initial, frames, points, referencePi).canvas.insideCircle == CountInside(points)
    ensures Animation.StoredPoints(Run(Initial, frames, points, referencePi).canvas) == |points|
  {
    Animation.InitialIsValid();
    RunCanvas(Initial, frames, points, referencePi);
    Animation.RunFromInitial(points);
  }

  /** Right after a call that passes a frame number divisible by 10, the
      window shows the figures of every call so far, as soon as one point
      has been inside. */
  lemma TenthFrameShowsCurrentFigures(frames: seq<nat>, points: seq<Point>, referencePi: real)
    requires |frames| == |points|
    requires referencePi > 0.0
    requires |points| > 0 && frames[|points| - 1] % 10 == 0
    requires CountInside(points) > 0
    ensures var v := Run(Initial, frames, points, referencePi).stats;
      && v.Some?
      && v.value.pointsInside == CountInside(points)
      && v.value.totalPoints == |points|
      && v.value.piEstimate == ScaledRatio(CountInside(points), |points|)
  {
    var n := |points| - 1;
    Animation.InitialIsValid();
    RunCanvas(Initial, frames[..n], points[..n], referencePi);
    var before := Run(Initial, frames[..n], points[..n], referencePi);
    assert before.canvas.running;
    RunFromInitialCounts(frames, points, referencePi);
    var after := before.(canvas := Animation.Update(before.canvas, points[n]));
    assert Run(Initial, frames, points, referencePi) == UpdateStats(after, referencePi);
  }

  /** A call whose frame number is not divisible by 10 leaves the shown
      figures as the previous call left them, so between refreshes they
      lag behind the count. */
  lemma StatsLagBetweenRefreshes(frames: seq<nat>, points: seq<Point>, referencePi: real)
    requires |frames| == |points|
    requires referencePi > 0.0
    requires |points| > 1 && frames[|points| - 1] % 10 != 0
    ensures Run(Initial, frames, points, referencePi).stats
         == Run(Initial, frames[..|points| - 1], points[..|points| - 1], referencePi).stats
  {
    Animation.InitialIsValid();
  }

  /** The frame numbers of a run without resize events: `lead` calls of
      `update(0)` from the initial draw (the animation has no `init_func`;
      how many such calls matplotlib makes depends on its version and
      backend), then frames 0, 1, 2, ... */
  function LeadingFrames(lead: nat, calls: nat): seq<nat> {
    seq(calls, k requires 0 <= k < calls => if k < lead then 0 else k - lead)
  }

  /** In such a run the statistics are refreshed exactly on the leading
      calls and on every tenth call after them. */
  lemma RefreshCalls(lead: nat, calls: nat, k: nat)
    requires k < calls
    ensures LeadingFrames(lead, calls)[k] % 10 == 0 <==> k < lead || (k - lead) % 10 == 0
  {
  }
}
