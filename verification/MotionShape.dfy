/**
  The shape of a figure: which pose each movement arrives at, how long it may take and at what
  rate, and how the path passes through the poses.
*/
module MotionShape {
  import opened Wrappers
  import opened HeadGeometry
  import opened MotionDocument
  import opened MotionSpec
  import opened MotionRenderer

  // ---- which pose a movement arrives at ------------------------------------

  /** The place of pose `k` of group `g` among all poses. */
  function Place(groups: seq<Group>, g: nat, k: nat): nat
    requires g <= |groups|
  {
    |Poses(groups[..g])| + k
  }

  predicate NoneEmpty(groups: seq<Group>) {
    forall g :: 0 <= g < |groups| ==> groups[g].poses != []
  }

  lemma PosesStep(groups: seq<Group>, g: nat)
    requires g < |groups|
    ensures Poses(groups[..g + 1]) == Poses(groups[..g]) + groups[g].poses
  {
    assert groups[..g + 1][..g] == groups[..g];
  }

  lemma {:induction false} PosesAt(groups: seq<Group>, g: nat, k: nat)
    requires g < |groups| && k < |groups[g].poses|
    ensures Place(groups, g, k) < |Poses(groups)| && Poses(groups)[Place(groups, g, k)] == groups[g].poses[k]
    decreases |groups|
  {
    var last := |groups| - 1;
    assert groups[..|groups|] == groups;
    PosesStep(groups, last);
    if g < last {
      var front := groups[..last];
      PosesAt(front, g, k);
      assert front[..g] == groups[..g];
    }
  }

  lemma {:induction false} OwnerFromIs(groups: seq<Group>, g: nat, k: nat, index: nat, from: nat)
    requires from <= g < |groups| && k < |groups[g].poses|
    requires index + |Poses(groups[..from])| == Place(groups, g, k)
    ensures OwnerFrom(index, groups, from) == Some((g, k))
    decreases g - from
  {
    PosesStep(groups, from);
    if from < g {
      PlacesRise(groups, from + 1, g);
      OwnerFromIs(groups, g, k, index - |groups[from].poses|, from + 1);
    }
  }

  lemma {:induction false} PlacesRise(groups: seq<Group>, g: nat, h: nat)
    requires g <= h <= |groups|
    ensures |Poses(groups[..g])| <= |Poses(groups[..h])|
    decreases h - g
  {
    if g < h {
      PlacesRise(groups, g, h - 1);
      PosesStep(groups, h - 1);
    }
  }

  lemma {:induction false} OwnerFromNone(groups: seq<Group>, index: nat, from: nat)
    requires from <= |groups| && index + |Poses(groups[..from])| >= |Poses(groups)|
    ensures OwnerFrom(index, groups, from) == None
    decreases |groups| - from
  {
    if from < |groups| {
      PosesStep(groups, from);
      PlacesRise(groups, from + 1, |groups|);
      assert groups[..|groups|] == groups;
      OwnerFromNone(groups, index - |groups[from].poses|, from + 1);
    }
  }

  /** The movement at the place of a pose arrives at that pose, and is owned by its beat; the one
      after all of them goes home. */
  lemma ArrivesAt(groups: seq<Group>, g: nat, k: nat)
    requires g < |groups| && k < |groups[g].poses|
    ensures var i := Place(groups, g, k);
      && i + 1 < |Keyframes(groups)| && Keyframes(groups)[i + 1] == groups[g].poses[k]
      && Owner(i, groups) == Some((g, k))
    ensures Keyframes(groups)[|Poses(groups)| + 1] == NEUTRAL && Owner(|Poses(groups)|, groups) == None
  {
    PosesAt(groups, g, k);
    OwnerFromIs(groups, g, k, Place(groups, g, k), 0);
    OwnerFromNone(groups, |Poses(groups)|, 0);
    assert groups[..0] == [];
  }

  /** The draws made before a movement: one for each drift among those before it, that is for each
      but the first movement of every beat. */
  lemma {:induction false} DrawsAre(groups: seq<Group>, g: nat, k: nat)
    requires NoneEmpty(groups) && g < |groups| && k < |groups[g].poses|
    ensures g + (if k > 0 then 1 else 0) <= Place(groups, g, k)
    ensures Draws(Place(groups, g, k), groups) == Place(groups, g, k) - g - if k > 0 then 1 else 0
    decreases Place(groups, g, k)
  {
    var i := Place(groups, g, k);
    if k > 0 {
      DrawsAre(groups, g, k - 1);
      ArrivesAt(groups, g, k - 1);
    } else if g > 0 {
      var last := |groups[g - 1].poses| - 1;
      PosesStep(groups, g - 1);
      assert Place(groups, g - 1, last) == i - 1;
      DrawsAre(groups, g - 1, last);
      ArrivesAt(groups, g - 1, last);
    } else {
      assert groups[..0] == [];
    }
  }

  // ---- the time and the rate of a movement ---------------------------------

  /** The movement to a beat takes 600 ms at least, and aims at the rate of the beat's energy; a
      drift within a hold is slower than any, and takes about 760 ms, the second one about 900, give
      or take a draw of its own; the way home is as calm as a calm beat. */
  lemma MovementIs(env: Env, groups: seq<Group>, g: nat, k: nat)
    requires NoneEmpty(groups) && g < |groups| && k < |groups[g].poses|
    ensures var i := Place(groups, g, k);
      && i < |Segments(env, groups)| && i >= g
      && var s := Segments(env, groups)[i];
         && s.end == groups[g].poses[k]
         && (k == 0 ==> s.floor == 600 && s.rate == match groups[g].energy case Low => 50.0 case Mid => 68.0 case High => 88.0)
         && (k > 0 ==> i > g && s.rate == 20.0 && s.floor == (if k % 2 == 1 then 760 else 900) + env.jitter(i - g - 1))
    ensures var s := Segments(env, groups)[|Poses(groups)|]; s.end == NEUTRAL && s.floor == 600 && s.rate == 50.0
  {
    hide Segments, Owner, Draws, Poses, Keyframes, SegmentAt, NoneEmpty, Place;
    ArrivesAt(groups, g, k);
    DrawsAre(groups, g, k);
    KeyframesCount(groups);
    SegmentFields(env, groups, Place(groups, g, k), Some((g, k)));
    SegmentFields(env, groups, |Poses(groups)|, None);
  }

  lemma SegmentFields(env: Env, groups: seq<Group>, index: nat, owner: Option<(nat, nat)>)
    requires index + 1 < |Keyframes(groups)| && Owner(index, groups) == owner
    requires owner.Some? ==> owner.value.0 < |groups|
    ensures index < |Segments(env, groups)|
    ensures var s := Segments(env, groups)[index];
      && s.end == Keyframes(groups)[index + 1]
      && match owner
         case None => s.floor == 600 && s.rate == 50.0
         case Some((g, k)) =>
           if k == 0 then
             s.floor == 600 && s.rate == match groups[g].energy case Low => 50.0 case Mid => 68.0 case High => 88.0
           else
             s.rate == 20.0 && s.floor == (if k % 2 == 1 then 760 else 900) + env.jitter(Draws(index, groups))
  {
    hide HandleIn, HandleOut, ClampControl, Owner, Draws, Keyframes;
  }

  lemma KeyframesCount(groups: seq<Group>)
    ensures |Keyframes(groups)| == |Poses(groups)| + 2
  {
  }

  /** There is no track at this scale exactly when some movement needs more than 1,600 ms. */
  lemma RefusedIff(env: Env, beats: seq<Beat>, drifts: nat, scale: real)
    requires drifts <= 2
    ensures var segments := Segments(env, Groups(beats, drifts, scale));
      HeadTrack(env, beats, drifts, scale).None?
      <==> exists i :: 0 <= i < |segments| && segments[i].rate > 0.0 && Needed(env.hyp, segments[i]) > 1600
  {
    var groups := Groups(beats, drifts, scale);
    var segments, spans := Segments(env, groups), Spans(env, groups);
    hide Segments, Spans, Needed, Groups;
    if i :| 0 <= i < |spans| && spans[i] > MAX_HEAD_TRANSITION {
      assert Needed(env.hyp, segments[i]) > 1600;
    }
    if i :| 0 <= i < |segments| && segments[i].rate > 0.0 && Needed(env.hyp, segments[i]) > 1600 {
      assert spans[i] > MAX_HEAD_TRANSITION;
    }
  }

  /** A track first joins whatever posture the head is in, for 250 ms; and the time of each beat is
      that of the movements that arrive in it. */
  lemma GroupsAreTheirMovements(env: Env, beats: seq<Beat>, drifts: nat, scale: real, plan: Plan, g: nat)
    requires drifts <= 2 && HeadTrack(env, beats, drifts, scale) == Some(plan) && g < |beats|
    ensures var groups := Groups(beats, drifts, scale);
      var from, to := 1 + Place(groups, g, 0), 1 + Place(groups, g + 1, 0);
      && |plan.durations| == |beats| + 2 && plan.durations[0] == 250
      && plan.head != [] && plan.head[0] == HeadTransition(250, ANYWHERE, ANYWHERE, ANYWHERE, ANYWHERE, [0.0, 0.0, 1.0, 1.0])
      && from <= to <= |plan.head| && plan.durations[g + 1] == Sum(HeadDurations(plan.head)[from..to])
  {
    hide Spans, Moves, Poses, Groups, GroupTimes, Sum, Keyframes;
    var groups := Groups(beats, drifts, scale);
    var spans := Spans(env, groups);
    assert groups[..|groups|] == groups;
    KeyframesCount(groups);
    PlacesRise(groups, g, g + 1);
    PlacesRise(groups, g + 1, |groups|);
    GroupTimeIs(spans, groups, |groups|, g);
    GroupTimesCount(spans, groups, |groups|);
    MovesTake(env, groups);
    TimesAfterLead(Moves(env, groups), spans, Place(groups, g, 0), Place(groups, g + 1, 0));
  }

  lemma TimesAfterLead(moves: seq<HeadTransition>, spans: seq<int>, from: nat, to: nat)
    requires |moves| == |spans| && forall i :: 0 <= i < |spans| ==> moves[i].duration == spans[i]
    requires from <= to <= |spans|
    ensures HeadDurations([HeadContinue(LEAD_IN)] + moves)[1 + from..1 + to] == spans[from..to]
  {
    var times := HeadDurations([HeadContinue(LEAD_IN)] + moves);
    assert times[1..] == spans;
    assert times[1 + from..1 + to] == times[1..][from..to];
  }

  lemma MovesTake(env: Env, groups: seq<Group>)
    ensures |Moves(env, groups)| == |Spans(env, groups)|
    ensures forall i :: 0 <= i < |Spans(env, groups)| ==> Moves(env, groups)[i].duration == Spans(env, groups)[i]
  {
    hide Needed, Segments;
  }

  lemma {:induction false} GroupTimesCount(spans: seq<int>, groups: seq<Group>, n: nat)
    requires n <= |groups| && |Poses(groups[..n])| <= |spans|
    ensures |GroupTimes(spans, groups, n)| == n
  {
    if n > 0 {
      assert groups[..n][..n - 1] == groups[..n - 1];
      GroupTimesCount(spans, groups, n - 1);
    }
  }

  lemma {:induction false} GroupTimeIs(spans: seq<int>, groups: seq<Group>, n: nat, g: nat)
    requires g < n <= |groups| && |Poses(groups[..n])| <= |spans|
    ensures |Poses(groups[..g])| <= |Poses(groups[..g + 1])| <= |spans|
    ensures g < |GroupTimes(spans, groups, n)|
    ensures GroupTimes(spans, groups, n)[g] == Sum(spans[|Poses(groups[..g])|..|Poses(groups[..g + 1])|])
  {
    assert groups[..n][..n - 1] == groups[..n - 1];
    PlacesRise(groups, g, g + 1);
    PlacesRise(groups, g + 1, n);
    GroupTimesCount(spans, groups, n - 1);
    hide Poses, Sum;
    if g < n - 1 {
      GroupTimeIs(spans, groups, n - 1, g);
    }
  }

  // ---- through the poses ---------------------------------------------------

  /** The path passes every pose without a corner: it arrives in the direction, and with the reach,
      in which it leaves. */
  lemma NoCorners(hyp: Hypot, kf: seq<Pose>, i: nat)
    requires i < |kf|
    ensures var p, a, b := ToVec(kf[i]), HandleIn(hyp, kf, i), HandleOut(hyp, kf, i);
      p.x - a.x == b.x - p.x && p.y - a.y == b.y - p.y
  {
  }

  /** It sets out along its first chord and comes in along its last. */
  lemma EndsAlongTheChord(hyp: Hypot, kf: seq<Pose>)
    requires |kf| >= 2
    ensures var n := |kf| - 1;
      var out, back := HandleOut(hyp, kf, 0), HandleIn(hyp, kf, n);
      && out == Vec(kf[0].x as real + (kf[1].x - kf[0].x) as real * 0.62 / 3.0,
                    kf[0].y as real + (kf[1].y - kf[0].y) as real * 0.62 / 3.0)
      && back == Vec(kf[n].x as real - (kf[n].x - kf[n - 1].x) as real * 0.62 / 3.0,
                     kf[n].y as real - (kf[n].y - kf[n - 1].y) as real * 0.62 / 3.0)
  {
    assert kf[1].x as real - kf[0].x as real == (kf[1].x - kf[0].x) as real;
    assert kf[1].y as real - kf[0].y as real == (kf[1].y - kf[0].y) as real;
  }

  // ---- turning round -------------------------------------------------------

  function Dot(u: Vec, v: Vec): real {
    u.x * v.x + u.y * v.y
  }

  function Cross(u: Vec, v: Vec): real {
    u.x * v.y - u.y * v.x
  }

  /** A vector cut to a length keeps its direction. */
  lemma CutKeepsDirection(hyp: Hypot, v: Vec, limit: real)
    requires IsHypot(hyp) && limit > 0.0
    ensures var c, length := CutTo(hyp, v, limit), Length(hyp, v);
      if length <= limit then c == v
      else exists f: real :: 0.0 < f < 1.0 && c == Scale(f, v) && Dot(c, c) == limit * limit
  {
    var length := Length(hyp, v);
    if length > limit {
      var f := limit / length;
      assert f * length == limit;
      Fraction(f, limit, length);
      assert v.x * limit / length == f * v.x && v.y * limit / length == f * v.y;
      assert Dot(v, v) == length * length;
      assert Dot(Scale(f, v), Scale(f, v)) == (f * length) * (f * length) by {
        ScaledSquare(f, v.x, v.y, length);
      }
    }
  }

  lemma Fraction(f: real, a: real, b: real)
    requires 0.0 < a < b && f * b == a
    ensures 0.0 < f < 1.0
  {
    SignOfProduct(f, b);
    var g := 1.0 - f;
    assert g * b == b - a;
    SignOfProduct(g, b);
  }

  lemma SignOfProduct(k: real, length: real)
    requires length > 0.0
    ensures k * length > 0.0 <==> k > 0.0
  {
  }

  lemma ScaledSquare(f: real, x: real, y: real, length: real)
    requires x * x + y * y == length * length
    ensures (f * x) * (f * x) + (f * y) * (f * y) == (f * length) * (f * length)
  {
    assert (f * x) * (f * x) == f * f * (x * x) && (f * y) * (f * y) == f * f * (y * y);
    assert (f * length) * (f * length) == f * f * (length * length);
    assert f * f * (x * x) + f * f * (y * y) == f * f * (x * x + y * y);
  }

  /** At an inner pose: half way between the neighbours, unless that is short beside the longer chord:
      then the head would stop and go back the way it came, and it swings aside instead, square to
      its way in, by just over half the longer chord, to alternate sides. */
  lemma TurnIs(hyp: Hypot, before: Vec, point: Vec, after: Vec, odd: bool)
    requires IsHypot(hyp)
    ensures var t, way, out := Turn(hyp, before, point, after, odd), Leg(before, point), Leg(point, after);
      var half := Scale(0.5, Leg(before, after));
      var longer := if Length(hyp, way) < Length(hyp, out) then Length(hyp, out) else Length(hyp, way);
      && (Length(hyp, half) >= longer / 4.0 ==> t == half)
      && (Length(hyp, half) < longer / 4.0 && Length(hyp, way) > 0.000001 ==>
            && Dot(t, way) == 0.0 && Dot(t, t) == (0.55 * longer) * (0.55 * longer)
            && (Cross(way, t) > 0.0 <==> odd))
      && (Length(hyp, half) < longer / 4.0 && Length(hyp, way) <= 0.000001 ==>
            t.y == t.x * 0.45 && t.x == if odd then 0.55 * longer else -(0.55 * longer))
  {
    hide IsHypot, Length, Dot, Cross, Aside;
    var way := Leg(before, point);
    var longer := MaxR(Length(hyp, way), Length(hyp, Leg(point, after)));
    LengthIs(hyp, way);
    LengthIs(hyp, Leg(point, after));
    if Length(hyp, way) > 0.000001 {
      AsideIs(way, Length(hyp, way), 0.55 * longer * (if odd then 1.0 else -1.0));
    }
  }

  lemma LengthIs(hyp: Hypot, v: Vec)
    requires IsHypot(hyp)
    ensures Length(hyp, v) >= 0.0 && v.x * v.x + v.y * v.y == Length(hyp, v) * Length(hyp, v)
  {
  }

  /** Square to the way, of the given length, on the side of its sign. */
  lemma AsideIs(way: Vec, length: real, reach: real)
    requires length > 0.0 && way.x * way.x + way.y * way.y == length * length
    ensures var t := Aside(way, length, reach);
      Dot(t, way) == 0.0 && Dot(t, t) == reach * reach && (Cross(way, t) > 0.0 <==> reach > 0.0)
  {
    hide Dot, Cross, Aside;
    var c := AsideBy(way, length, reach);
    AcrossIsSquare(c, way);
    AcrossIsAsLong(c, way, length, reach);
    AcrossHasItsSide(c, way, length, reach);
  }

  function Across(c: real, way: Vec): Vec {
    Vec(-(c * way.y), c * way.x)
  }

  lemma AcrossIsSquare(c: real, way: Vec)
    ensures Dot(Across(c, way), way) == 0.0
  {
    Crossed(c, way.x, way.y);
  }

  lemma AcrossIsAsLong(c: real, way: Vec, length: real, reach: real)
    requires way.x * way.x + way.y * way.y == length * length && c * length == reach
    ensures Dot(Across(c, way), Across(c, way)) == reach * reach
  {
    TurnedSquare(c, way.x, way.y, length, reach);
  }

  lemma AcrossHasItsSide(c: real, way: Vec, length: real, reach: real)
    requires length > 0.0 && way.x * way.x + way.y * way.y == length * length && c * length == reach
    ensures Cross(way, Across(c, way)) > 0.0 <==> reach > 0.0
  {
    var k := Lengthened(c, way.x, way.y, length, reach);
    SignOfProduct(reach, length);
  }

  lemma AsideBy(way: Vec, length: real, reach: real) returns (c: real)
    requires length > 0.0
    ensures c * length == reach && Aside(way, length, reach) == Across(c, way)
  {
    c := reach / length;
    Regroup(way.x, reach, length);
    Regroup(-way.y, reach, length);
  }

  lemma Regroup(y: real, s: real, length: real)
    requires length > 0.0
    ensures y / length * s == s / length * y
  {
    var a, b := y / length, s / length;
    assert a * length == y && b * length == s;
    assert a * (b * length) == b * (a * length);
  }

  lemma Crossed(c: real, x: real, y: real)
    ensures -(c * y) * x + (c * x) * y == 0.0
  {
    assert (c * y) * x == c * (x * y) && (c * x) * y == c * (x * y);
  }

  lemma TurnedSquare(c: real, x: real, y: real, length: real, reach: real)
    requires x * x + y * y == length * length && c * length == reach
    ensures -(c * y) * -(c * y) + (c * x) * (c * x) == reach * reach
  {
    ScaledSquare(c, x, y, length);
  }

  lemma Lengthened(c: real, x: real, y: real, length: real, reach: real) returns (k: real)
    requires x * x + y * y == length * length && c * length == reach
    ensures k == x * (c * x) - y * -(c * y) && k == reach * length
  {
    k := x * (c * x) - y * -(c * y);
    assert x * (c * x) == c * (x * x) && y * -(c * y) == -(c * (y * y));
    assert c * (x * x) + c * (y * y) == c * (x * x + y * y);
    assert c * (length * length) == (c * length) * length;
  }

  /** The reach out of an inner pose: a third of that turn, cut to a tenth more than the shorter
      chord, or four degrees. */
  lemma HandleIsAThird(hyp: Hypot, kf: seq<Pose>, i: nat)
    requires 0 < i && i + 1 < |kf|
    ensures var before, point, after := ToVec(kf[i - 1]), ToVec(kf[i]), ToVec(kf[i + 1]);
      var way, out := Length(hyp, Leg(before, point)), Length(hyp, Leg(point, after));
      var tenthMore := (if way < out then way else out) * 1.1;
      var limit := if tenthMore < 4.0 then 4.0 else tenthMore;
      var t := CutTo(hyp, Turn(hyp, before, point, after, i % 2 == 1), limit);
      HandleOut(hyp, kf, i) == Vec(point.x + t.x / 3.0, point.y + t.y / 3.0)
  {
  }

  /** A handle that would fall on the end of its movement is drawn back, by a fifth of the movement
      and two degrees more. */
  lemma HandleIsDrawnBack(env: Env, groups: seq<Group>, index: nat, draw: nat)
    requires index + 1 < |Keyframes(groups)|
    ensures var kf := Keyframes(groups);
      var s, start, end := SegmentAt(env, groups, index, draw), kf[index], kf[index + 1];
      var back := ClampControl(HandleIn(env.hyp, kf, index + 1));
      && s.start == start && s.end == end && s.one == ClampControl(HandleOut(env.hyp, kf, index))
      && s.two == if back != end then back
                  else ClampControl(Vec(end.x as real - (end.x - start.x) as real / 5.0 - 2.0, (end.y - 2) as real))
  {
    hide HandleIn, HandleOut, ClampControl, SegmentFloor, SegmentRate, Keyframes;
    var kf := Keyframes(groups);
    var start, end := kf[index], kf[index + 1];
    assert (end.x - start.x) as real * 0.2 == (end.x - start.x) as real / 5.0;
    assert end.y as real - 2.0 == (end.y - 2) as real;
  }
}
