/**
  Measuring a head track: what the robot is commanded to do, sampled along the path it will
  really take.

  A rate divided by no time, or by a timing curve that stands still, is infinite.  Where the
  renderer multiplies a zero speed by an infinite slope, the comparison that follows ignores
  the product, so it counts as rate zero here.
*/
module HeadRate {
  import opened Wrappers
  import opened HeadGeometry
  import opened MotionDocument

  datatype Rate = Finite(value: real) | Infinite

  predicate AtMost(r: Rate, limit: real) {
    r.Finite? && r.value <= limit
  }

  function Faster(a: Rate, b: Rate): Rate {
    if a.Infinite? || b.Infinite? then Infinite
    else if a.value < b.value then b else a
  }

  function Larger(a: real, b: real): real {
    if a < b then b else a
  }

  function Abs(x: real): real {
    if x < 0.0 then -x else x
  }

  datatype Path = Path(p0: Vec, p1: Vec, p2: Vec, p3: Vec)

  function Place(p: Path, t: real): Vec {
    Cubic(p.p0, p.p1, p.p2, p.p3, t)
  }

  function PathSpeed(hyp: Hypot, p: Path, t: real): real {
    Speed(hyp, p.p0, p.p1, p.p2, p.p3, t)
  }

  const SAFE_RATE := 120.0

  // ---- the timing curve ----------------------------------------------------

  function Progress(ease: seq<real>, t: real): real
    requires |ease| == 4
  {
    Cubic1(0.0, ease[1], ease[3], 1.0, t)
  }

  function Slope(ease: seq<real>, t: real): Rate
    requires |ease| == 4
  {
    var dx, dy := Slope1(0.0, ease[0], ease[2], 1.0, t), Slope1(0.0, ease[1], ease[3], 1.0, t);
    if Abs(dx) < 0.000000001 then Infinite else Finite(Abs(dy / dx))
  }

  /** The rate commanded at one parameter of the timing curve. */
  function RateAt(hyp: Hypot, p: Path, ease: seq<real>, duration: int, t: real): Rate
    requires |ease| == 4
  {
    if duration <= 0 then Infinite
    else
      var speed := PathSpeed(hyp, p, Progress(ease, t));
      var slope := Slope(ease, t);
      if slope.Infinite? then if speed == 0.0 then Finite(0.0) else Infinite
      else Finite(speed * slope.value / (duration as real / 1000.0))
  }

  /** 257 midpoints of an even division: the open interval. */
  function Midpoints(): (ts: seq<real>)
    ensures |ts| == 257 && forall k :: 0 <= k < 257 ==> ts[k] == (k as real + 0.5) / 257.0
  {
    seq(257, (k: nat) => (k as real + 0.5) / 257.0)
  }

  // ---- one transition ------------------------------------------------------

  /** The peak rate over these points. */
  function PeakRate(hyp: Hypot, p: Path, ease: seq<real>, duration: int, ts: seq<real>): Rate
    requires |ease| == 4
  {
    if ts == [] then Finite(0.0)
    else Faster(PeakRate(hyp, p, ease, duration, ts[..|ts| - 1]), RateAt(hyp, p, ease, duration, ts[|ts| - 1]))
  }

  /** The farthest the path strays over these points. */
  function PeakX(p: Path, ease: seq<real>, ts: seq<real>): real
    requires |ease| == 4
  {
    if ts == [] then 0.0
    else Larger(PeakX(p, ease, ts[..|ts| - 1]), Abs(Place(p, Progress(ease, ts[|ts| - 1])).x))
  }

  function PeakY(p: Path, ease: seq<real>, ts: seq<real>): real
    requires |ease| == 4
  {
    if ts == [] then 0.0
    else Larger(PeakY(p, ease, ts[..|ts| - 1]), Abs(Place(p, Progress(ease, ts[|ts| - 1])).y))
  }

  method SampleTransition(hyp: Hypot, p: Path, ease: seq<real>, duration: int)
    returns (rate: Rate, x: real, y: real)
    requires |ease| == 4
    ensures rate == PeakRate(hyp, p, ease, duration, Midpoints())
    ensures x == PeakX(p, ease, Midpoints()) && y == PeakY(p, ease, Midpoints())
  {
    hide Cubic, Speed, Slope, Progress, Place, PathSpeed, Larger, Abs;
    rate, x, y := Finite(0.0), 0.0, 0.0;
    var points := Midpoints();
    for index := 0 to |points|
      invariant rate == PeakRate(hyp, p, ease, duration, points[..index])
      invariant x == PeakX(p, ease, points[..index]) && y == PeakY(p, ease, points[..index])
    {
      assert points[..index + 1][..index] == points[..index];
      var parameter := points[index];
      var progress, slope := Progress(ease, parameter), Slope(ease, parameter);
      var point := Place(p, progress);
      x, y := Larger(x, Abs(point.x)), Larger(y, Abs(point.y));
      if duration <= 0 {
        rate := Infinite;
      } else {
        var speed := PathSpeed(hyp, p, progress);
        var here :=
          if slope.Infinite? then if speed == 0.0 then Finite(0.0) else Infinite
          else Finite(speed * slope.value / (duration as real / 1000.0));
        assert here == RateAt(hyp, p, ease, duration, parameter);
        rate := Faster(rate, here);
      }
    }
    assert points[..|points|] == points;
  }

  /** A peak is within a limit exactly when every sample is. */
  lemma {:induction false} PeakRateBound(
    hyp: Hypot, p: Path, ease: seq<real>, duration: int, ts: seq<real>, limit: real)
    requires |ease| == 4 && limit >= 0.0
    ensures AtMost(PeakRate(hyp, p, ease, duration, ts), limit)
       <==> forall k :: 0 <= k < |ts| ==> AtMost(RateAt(hyp, p, ease, duration, ts[k]), limit)
  {
    hide RateAt;
    if ts != [] {
      var front := ts[..|ts| - 1];
      PeakRateBound(hyp, p, ease, duration, front, limit);
      assert forall k :: 0 <= k < |front| ==> front[k] == ts[k];
    }
  }

  lemma {:induction false} PeakXBound(p: Path, ease: seq<real>, ts: seq<real>, limit: real)
    requires |ease| == 4 && limit >= 0.0
    ensures PeakX(p, ease, ts) <= limit
       <==> forall k :: 0 <= k < |ts| ==> Abs(Place(p, Progress(ease, ts[k])).x) <= limit
  {
    hide Place, Progress, Abs;
    if ts != [] {
      var front := ts[..|ts| - 1];
      PeakXBound(p, ease, front, limit);
      assert forall k :: 0 <= k < |front| ==> front[k] == ts[k];
    }
  }

  lemma {:induction false} PeakYBound(p: Path, ease: seq<real>, ts: seq<real>, limit: real)
    requires |ease| == 4 && limit >= 0.0
    ensures PeakY(p, ease, ts) <= limit
       <==> forall k :: 0 <= k < |ts| ==> Abs(Place(p, Progress(ease, ts[k])).y) <= limit
  {
    hide Place, Progress, Abs;
    if ts != [] {
      var front := ts[..|ts| - 1];
      PeakYBound(p, ease, front, limit);
      assert forall k :: 0 <= k < |front| ==> front[k] == ts[k];
    }
  }

  // ---- the whole track -----------------------------------------------------

  /** A transition without a full target is a join: nothing is commanded to move. */
  predicate Moving(t: HeadTransition) {
    t.p3.x.Some? && t.p3.y.Some?
  }

  function Target(t: HeadTransition): Vec
    requires Moving(t)
  {
    Vec(t.p3.x.value, t.p3.y.value)
  }

  function ControlOr(p: Point, fallback: Vec): Vec {
    Vec(if p.x.Some? then p.x.value else fallback.x,
        if p.y.Some? then p.y.value else fallback.y)
  }

  /** Where the head is after the first `n` transitions: it starts at neutral. */
  function Current(head: seq<HeadTransition>, n: nat): Vec
    requires n <= |head|
  {
    if n == 0 then Vec(0.0, 0.0)
    else if Moving(head[n - 1]) then Target(head[n - 1])
    else Current(head, n - 1)
  }

  /** The path transition `i` really takes, from wherever the head is by then. */
  function PathOf(head: seq<HeadTransition>, i: nat): Path
    requires i < |head| && Moving(head[i])
  {
    var from, to := Current(head, i), Target(head[i]);
    Path(from, ControlOr(head[i].p1, from), ControlOr(head[i].p2, to), to)
  }

  predicate Eased(head: seq<HeadTransition>) {
    forall i :: 0 <= i < |head| ==> |head[i].ease| == 4
  }

  datatype Report = Report(rate: Rate, perTransition: seq<Rate>, horizontal: real, vertical: real)

  predicate IsSafe(r: Report) {
    && AtMost(r.rate, SAFE_RATE)
    && r.horizontal <= MAX_HEAD_ANGLE as real && r.vertical <= MAX_VERTICAL_ANGLE as real
  }

  function RateOf(hyp: Hypot, head: seq<HeadTransition>, i: nat): Rate
    requires i < |head| && Eased(head)
  {
    if Moving(head[i]) then PeakRate(hyp, PathOf(head, i), head[i].ease, head[i].duration, Midpoints())
    else Finite(0.0)
  }

  function Peak(rates: seq<Rate>): Rate {
    if rates == [] then Finite(0.0) else Faster(Peak(rates[..|rates| - 1]), rates[|rates| - 1])
  }

  function FarthestX(head: seq<HeadTransition>, n: nat): real
    requires n <= |head| && Eased(head)
  {
    if n == 0 then 0.0
    else if Moving(head[n - 1]) then
      Larger(FarthestX(head, n - 1), PeakX(PathOf(head, n - 1), head[n - 1].ease, Midpoints()))
    else FarthestX(head, n - 1)
  }

  function FarthestY(head: seq<HeadTransition>, n: nat): real
    requires n <= |head| && Eased(head)
  {
    if n == 0 then 0.0
    else if Moving(head[n - 1]) then
      Larger(FarthestY(head, n - 1), PeakY(PathOf(head, n - 1), head[n - 1].ease, Midpoints()))
    else FarthestY(head, n - 1)
  }

  method HeadRateReport(hyp: Hypot, head: seq<HeadTransition>) returns (r: Report)
    requires Eased(head)
    ensures |r.perTransition| == |head|
    ensures forall i :: 0 <= i < |head| ==> r.perTransition[i] == RateOf(hyp, head, i)
    ensures r.rate == Peak(r.perTransition)
    ensures r.horizontal == FarthestX(head, |head|) && r.vertical == FarthestY(head, |head|)
  {
    hide PeakRate, PeakX, PeakY, Larger;
    var current := Vec(0.0, 0.0);
    var peaks, peak, x, y := [], Finite(0.0), 0.0, 0.0;
    for i := 0 to |head|
      invariant current == Current(head, i)
      invariant |peaks| == i && peak == Peak(peaks)
      invariant forall j :: 0 <= j < i ==> peaks[j] == RateOf(hyp, head, j)
      invariant x == FarthestX(head, i) && y == FarthestY(head, i)
    {
      if Moving(head[i]) {
        var target := Target(head[i]);
        var path := Path(current, ControlOr(head[i].p1, current), ControlOr(head[i].p2, target), target);
        var rate, farX, farY := SampleTransition(hyp, path, head[i].ease, head[i].duration);
        assert (peaks + [rate])[..i] == peaks;
        peaks, peak := peaks + [rate], Faster(peak, rate);
        x, y := Larger(x, farX), Larger(y, farY);
        current := target;
      } else {
        assert (peaks + [Finite(0.0)])[..i] == peaks;
        peaks, peak := peaks + [Finite(0.0)], Faster(peak, Finite(0.0));
      }
    }
    r := Report(peak, peaks, x, y);
  }

  // ---- what a report says --------------------------------------------------

  /** Every sample of every moving transition keeps to the limits. */
  ghost predicate RateWithin(hyp: Hypot, head: seq<HeadTransition>, i: nat, limit: real)
    requires i < |head| && Eased(head)
  {
    Moving(head[i]) ==>
      forall k :: 0 <= k < |Midpoints()| ==>
        AtMost(RateAt(hyp, PathOf(head, i), head[i].ease, head[i].duration, Midpoints()[k]), limit)
  }

  ghost predicate ExcursionWithin(head: seq<HeadTransition>, i: nat)
    requires i < |head| && Eased(head)
  {
    Moving(head[i]) ==>
      forall k :: 0 <= k < |Midpoints()| ==>
        var place := Place(PathOf(head, i), Progress(head[i].ease, Midpoints()[k]));
        Abs(place.x) <= MAX_HEAD_ANGLE as real && Abs(place.y) <= MAX_VERTICAL_ANGLE as real
  }

  lemma {:induction false} PeakBound(rates: seq<Rate>, limit: real)
    requires limit >= 0.0
    ensures AtMost(Peak(rates), limit) <==> forall i :: 0 <= i < |rates| ==> AtMost(rates[i], limit)
  {
    if rates != [] {
      var front := rates[..|rates| - 1];
      PeakBound(front, limit);
      assert forall i :: 0 <= i < |front| ==> front[i] == rates[i];
    }
  }

  /** The peaks of one transition stay inside the box exactly when its samples do. */
  lemma InsideBox(head: seq<HeadTransition>, i: nat)
    requires i < |head| && Eased(head) && Moving(head[i])
    ensures PeakX(PathOf(head, i), head[i].ease, Midpoints()) <= MAX_HEAD_ANGLE as real
         && PeakY(PathOf(head, i), head[i].ease, Midpoints()) <= MAX_VERTICAL_ANGLE as real
       <==> ExcursionWithin(head, i)
  {
    hide PathOf, Place, Progress, Abs, PeakX, PeakY;
    var path, ease := PathOf(head, i), head[i].ease;
    PeakXBound(path, ease, Midpoints(), MAX_HEAD_ANGLE as real);
    PeakYBound(path, ease, Midpoints(), MAX_VERTICAL_ANGLE as real);
    if ExcursionWithin(head, i) {
      forall k | 0 <= k < |Midpoints()|
        ensures Abs(Place(path, Progress(ease, Midpoints()[k])).x) <= MAX_HEAD_ANGLE as real
        ensures Abs(Place(path, Progress(ease, Midpoints()[k])).y) <= MAX_VERTICAL_ANGLE as real
      {
      }
    }
  }

  lemma {:induction false} FarthestBound(head: seq<HeadTransition>, n: nat)
    requires n <= |head| && Eased(head)
    ensures FarthestX(head, n) <= MAX_HEAD_ANGLE as real && FarthestY(head, n) <= MAX_VERTICAL_ANGLE as real
       <==> forall i: nat :: i < n ==> ExcursionWithin(head, i)
  {
    hide PathOf, PeakX, PeakY, ExcursionWithin;
    if n > 0 {
      FarthestBound(head, n - 1);
      if Moving(head[n - 1]) {
        InsideBox(head, n - 1);
      } else {
        Unmoved(head, n - 1);
      }
    }
  }

  lemma Unmoved(head: seq<HeadTransition>, i: nat)
    requires i < |head| && Eased(head) && !Moving(head[i])
    ensures ExcursionWithin(head, i)
  {
  }

  /** A report is safe exactly when every sample keeps to the rate and stays inside the box. */
  lemma {:induction false} SafeIff(hyp: Hypot, head: seq<HeadTransition>, r: Report)
    requires Eased(head) && |r.perTransition| == |head|
    requires forall i :: 0 <= i < |head| ==> r.perTransition[i] == RateOf(hyp, head, i)
    requires r.rate == Peak(r.perTransition)
    requires r.horizontal == FarthestX(head, |head|) && r.vertical == FarthestY(head, |head|)
    ensures IsSafe(r)
       <==> forall i: nat :: i < |head| ==> RateWithin(hyp, head, i, 120.0) && ExcursionWithin(head, i)
  {
    hide PathOf, Peak, PeakRate, FarthestX, FarthestY, RateAt, ExcursionWithin;
    PeakBound(r.perTransition, SAFE_RATE);
    FarthestBound(head, |head|);
    forall i: nat | i < |head|
      ensures AtMost(RateOf(hyp, head, i), SAFE_RATE) <==> RateWithin(hyp, head, i, SAFE_RATE)
    {
      if Moving(head[i]) {
        PeakRateBound(hyp, PathOf(head, i), head[i].ease, head[i].duration, Midpoints(), SAFE_RATE);
      }
    }
  }

  /** A rate is the speed of the path times the slope of the timing curve, over the time in seconds;
      without time, or where the curve stands still and the path does not, it is infinite. */
  lemma RateIs(hyp: Hypot, p: Path, ease: seq<real>, duration: int, t: real)
    requires |ease| == 4
    ensures var r, slope, speed := RateAt(hyp, p, ease, duration, t), Slope(ease, t), PathSpeed(hyp, p, Progress(ease, t));
      && (r.Infinite? <==> duration <= 0 || (slope.Infinite? && speed != 0.0))
      && (r.Finite? ==>
            if slope.Infinite? then r.value == 0.0
            else r.value * (duration as real / 1000.0) == speed * slope.value)
    ensures var dx := Slope1(0.0, ease[0], ease[2], 1.0, t);
      var dy := Slope1(0.0, ease[1], ease[3], 1.0, t);
      && (Slope(ease, t).Infinite? <==> -0.000000001 < dx < 0.000000001)
      && (Slope(ease, t).Finite? ==>
            Slope(ease, t).value >= 0.0 && (Slope(ease, t).value * dx == dy || Slope(ease, t).value * dx == -dy))
  {
    hide PathSpeed, Progress, Slope1;
  }

  /** A join commands nothing, and a track of joins alone stays where it is. */
  lemma JoinsCommandNothing(hyp: Hypot, head: seq<HeadTransition>, i: nat)
    requires i < |head| && Eased(head) && !Moving(head[i])
    ensures RateOf(hyp, head, i) == Finite(0.0)
    ensures Current(head, i + 1) == Current(head, i)
    ensures FarthestX(head, i + 1) == FarthestX(head, i) && FarthestY(head, i + 1) == FarthestY(head, i)
    ensures Current(head, 0) == Vec(0.0, 0.0) && FarthestX(head, 0) == 0.0 == FarthestY(head, 0)
  {
  }

  // ---- a linear transition -------------------------------------------------

  lemma ProductSign(x: real, y: real)
    requires x >= 0.0 && y >= 0.0
    ensures x * y >= 0.0
  {
  }

  /** On the linear curve progress stays in the interval and time runs evenly. */
  lemma LinearTiming(k: nat)
    requires k < |Midpoints()|
    ensures var ease := [0.0, 0.0, 1.0, 1.0];
      && 0.0 <= Progress(ease, Midpoints()[k]) <= 1.0 && Slope(ease, Midpoints()[k]) == Finite(1.0)
      && Progress(ease, Midpoints()[k]) == Cubic1(0.0, 0.0, 1.0, 1.0, Midpoints()[k])
  {
    var t := Midpoints()[k];
    assert t == (k as real + 0.5) / 257.0 && 1.0 / 514.0 <= t <= 513.0 / 514.0;
    hide Slope1, Cubic1;
    LinearProgress(t);
    LinearSlope(t);
    var ease, d := [0.0, 0.0, 1.0, 1.0], Slope1(0.0, 0.0, 1.0, 1.0, t);
    assert Slope(ease, t) == Finite(Abs(d / d)) && d / d == 1.0;
  }

  lemma LinearProgress(t: real)
    requires 0.0 <= t <= 1.0
    ensures 0.0 <= Cubic1(0.0, 0.0, 1.0, 1.0, t) <= 1.0
  {
    var rest := 1.0 - t;
    ProductSign(t, t);
    ProductSign(rest, rest);
    var square, other := t * t, rest * rest;
    ProductSign(square, rest);
    ProductSign(square, t);
    ProductSign(other, 1.0 + 2.0 * t);
    assert 3.0 * rest * t * t == 3.0 * (square * rest) && t * t * t == square * t;
    assert other * (1.0 + 2.0 * t) == 1.0 - 3.0 * (square * rest) - square * t;
  }

  lemma LinearSlope(t: real)
    requires 1.0 / 514.0 <= t <= 513.0 / 514.0
    ensures Slope1(0.0, 0.0, 1.0, 1.0, t) >= 0.000001
  {
    ProductMonotone(1.0 / 514.0, t, 1.0 / 514.0, 1.0 - t);
    assert Slope1(0.0, 0.0, 1.0, 1.0, t) == 6.0 * ((1.0 - t) * t);
  }
}
