/**
  What the renderer promises: every movement keeps to its rate at every point of its path,
  the head comes home, and the seven tracks last equally long inside the budget and are always
  a valid document.
*/
module MotionLaws {
  import opened Wrappers
  import opened HeadGeometry
  import opened MotionDocument
  import opened MotionSpec
  import opened HeadRate
  import opened MotionRenderer

  // ---- the time of one segment ---------------------------------------------

  /** `duration` milliseconds are enough for a sampled peak to stay at the target. */
  predicate Enough(hyp: Hypot, s: Segment, duration: int) {
    duration >= s.floor && PeakSpeed(hyp, s) * 1000.0 <= duration as real * s.rate
  }

  lemma Quotient(a: real, b: real, d: real)
    requires b > 0.0
    ensures a / b * 1000.0 <= d <==> a * 1000.0 <= d * b
  {
    var q := a / b;
    assert q * b == a;
    if q * 1000.0 <= d {
      assert (d - q * 1000.0) * b >= 0.0;
    } else {
      assert (q * 1000.0 - d) * b > 0.0;
    }
  }

  /** A segment is given the least time that is enough. */
  lemma NeededIsLeast(hyp: Hypot, s: Segment, duration: int)
    requires s.rate > 0.0
    ensures Needed(hyp, s) <= duration <==> Enough(hyp, s, duration)
  {
    hide PeakSpeed;
    Quotient(PeakSpeed(hyp, s), s.rate, duration as real);
  }

  function SegmentPath(s: Segment): Path {
    Path(ToVec(s.start), ToVec(s.one), ToVec(s.two), ToVec(s.end))
  }

  /** At `t` on the path the rate is at most the target, one part in 8192 over. */
  predicate KeepsTo(hyp: Hypot, path: Path, duration: int, rate: real, t: real) {
    PathSpeed(hyp, path, t) * 1000.0 <= duration as real * rate * (1.0 + 1.0 / 8192.0)
  }

  /** With enough time, the rate keeps to its target at every point of the path, not only at
      the samples: one part in 8192 is all that hides between them. */
  lemma SegmentRateLaw(hyp: Hypot, s: Segment, duration: int, t: real)
    requires IsHypot(hyp) && Enough(hyp, s, duration) && 0.0 <= t <= 1.0
    ensures KeepsTo(hyp, SegmentPath(s), duration, s.rate, t)
  {
    hide Speed, PeakPathSpeed, IsHypot;
    var peak := PeakSpeed(hyp, s);
    SamplesBoundPath(hyp, ToVec(s.start), ToVec(s.one), ToVec(s.two), ToVec(s.end), peak, t);
    var budget := duration as real * s.rate;
    assert (peak + peak / 8192.0) * 1000.0 == peak * 1000.0 * (1.0 + 1.0 / 8192.0);
  }

  // ---- a head track at a safe rate -----------------------------------------

  /** The top target rate, and what hides between samples; below the 120 allowed. */
  const TOP_RATE := 88.0 * (1.0 + 1.0 / 8192.0)

  /** Taken in `duration`, the path stays below the top rate everywhere. */
  ghost predicate GentlePath(hyp: Hypot, path: Path, duration: int) {
    duration > 0 && forall t :: 0.0 <= t <= 1.0 ==> PathSpeed(hyp, path, t) * 1000.0 <= TOP_RATE * duration as real
  }

  /** Transition `i`, if it moves, keeps below the top rate on the whole of its path. */
  ghost predicate Gentle(hyp: Hypot, head: seq<HeadTransition>, i: nat)
    requires i < |head|
  {
    Moving(head[i]) ==> head[i].ease == LINEAR && GentlePath(hyp, PathOf(head, i), head[i].duration)
  }

  ghost predicate AllGentle(hyp: Hypot, head: seq<HeadTransition>) {
    forall i: nat :: i < |head| ==> Gentle(hyp, head, i)
  }

  predicate EndsNeutral(head: seq<HeadTransition>) {
    head != [] && head[|head| - 1].p3 == At(0, 0)
  }

  /** A gentle track passes the rate half of the report. */
  lemma GentleIsWithinRate(hyp: Hypot, head: seq<HeadTransition>, i: nat)
    requires Eased(head) && i < |head| && Gentle(hyp, head, i)
    ensures RateWithin(hyp, head, i, SAFE_RATE)
  {
    hide PathOf, Speed, Progress, Slope;
    if Moving(head[i]) {
      forall k | 0 <= k < |Midpoints()|
        ensures AtMost(RateAt(hyp, PathOf(head, i), head[i].ease, head[i].duration, Midpoints()[k]), SAFE_RATE)
      {
        LinearTiming(k);
        var progress := Progress(LINEAR, Midpoints()[k]);
        var speed := PathSpeed(hyp, PathOf(head, i), progress);
        assert speed * 1000.0 <= TOP_RATE * head[i].duration as real;
        RateInSeconds(speed, head[i].duration);
      }
    }
  }

  lemma RateInSeconds(speed: real, duration: int)
    requires duration > 0 && speed * 1000.0 <= TOP_RATE * duration as real
    ensures speed * 1.0 / (duration as real / 1000.0) <= SAFE_RATE
  {
    var seconds := duration as real / 1000.0;
    var q := speed * 1.0 / seconds;
    assert q * seconds == speed;
    assert speed <= TOP_RATE * seconds;
    if q > TOP_RATE {
      assert (q - TOP_RATE) * seconds > 0.0;
    }
  }

  // ---- the track built from beats ------------------------------------------

  predicate PosesOk(groups: seq<Group>) {
    forall g :: 0 <= g < |groups| ==> forall p :: p in groups[g].poses ==> PoseOk(p)
  }

  lemma {:induction false} AllPosesOk(groups: seq<Group>)
    requires PosesOk(groups)
    ensures forall p :: p in Poses(groups) ==> PoseOk(p)
  {
    hide PoseOk;
    if groups != [] {
      AllPosesOk(groups[..|groups| - 1]);
    }
  }

  lemma KeyframesOk(groups: seq<Group>, i: nat)
    requires PosesOk(groups) && i < |Keyframes(groups)|
    ensures PoseOk(Keyframes(groups)[i])
  {
    AllPosesOk(groups);
    assert PoseOk(NEUTRAL);
    hide PoseOk;
  }

  lemma {:induction false} FewPoses(groups: seq<Group>, most: nat)
    requires forall g :: 0 <= g < |groups| ==> |groups[g].poses| <= most
    ensures |Poses(groups)| <= most * |groups|
  {
    if groups != [] {
      FewPoses(groups[..|groups| - 1], most);
      assert most * |groups| == most * (|groups| - 1) + most;
    }
  }

  function TrackOf(env: Env, groups: seq<Group>): seq<HeadTransition> {
    [HeadContinue(LEAD_IN)] + Moves(env, groups)
  }

  lemma TrackAt(env: Env, groups: seq<Group>, i: nat)
    requires i < |Moves(env, groups)|
    ensures TrackOf(env, groups)[i + 1] == Move(Segments(env, groups)[i], Spans(env, groups)[i])
    ensures Segments(env, groups)[i] == SegmentAt(env, groups, i, Draws(i, groups))
    ensures Spans(env, groups)[i] == Needed(env.hyp, Segments(env, groups)[i])
  {
    hide Segments, Spans, Moves, Keyframes, SegmentAt, Needed, Move, Draws;
  }

  lemma SegmentEnds(env: Env, groups: seq<Group>, i: nat, draw: nat)
    requires i + 1 < |Keyframes(groups)|
    ensures var s := SegmentAt(env, groups, i, draw);
      s.start == Keyframes(groups)[i] && s.end == Keyframes(groups)[i + 1] && s.rate == SegmentRate(i, groups)
  {
    hide ClampControl, HandleIn, HandleOut, SegmentFloor, SegmentRate, Keyframes;
  }

  /** After its lead-in and `i` movements the head is at keyframe `i`. */
  lemma Follows(env: Env, groups: seq<Group>, i: nat)
    requires i < |Keyframes(groups)|
    ensures Current(TrackOf(env, groups), i + 1) == ToVec(Keyframes(groups)[i])
  {
    hide Segments, Spans, Moves, Poses, SegmentAt, Needed, Draws;
    var head := TrackOf(env, groups);
    if i == 0 {
      assert head[0] == HeadContinue(LEAD_IN);
      assert Current(head, 1) == Current(head, 0);
    } else {
      TrackAt(env, groups, i - 1);
      SegmentEnds(env, groups, i - 1, Draws(i - 1, groups));
      assert Current(head, i + 1) == Target(head[i]);
    }
  }

  /** Movement `i` follows the path its time was solved for. */
  lemma TakesItsPath(env: Env, groups: seq<Group>, i: nat)
    requires i < |Segments(env, groups)|
    ensures var head := TrackOf(env, groups);
      Moving(head[i + 1]) && PathOf(head, i + 1) == SegmentPath(Segments(env, groups)[i])
  {
    Follows(env, groups, i);
    TrackAt(env, groups, i);
    SegmentEnds(env, groups, i, Draws(i, groups));
    hide Segments, Spans, Moves, Keyframes, SegmentAt, Needed, Draws, TrackOf, Current;
  }

  /** Every movement keeps to its own target rate, one part in 8192 over, on its whole path. */
  lemma MovementRateLaw(env: Env, groups: seq<Group>, i: nat, t: real)
    requires IsHypot(env.hyp) && i < |Segments(env, groups)| && 0.0 <= t <= 1.0
    ensures var head, rate := TrackOf(env, groups), SegmentRate(i, groups);
      Moving(head[i + 1]) && KeepsTo(env.hyp, PathOf(head, i + 1), head[i + 1].duration, rate, t)
  {
    TakesItsPath(env, groups, i);
    TrackAt(env, groups, i);
    SegmentEnds(env, groups, i, Draws(i, groups));
    hide Segments, Spans, Moves, Keyframes, SegmentAt, Needed, Draws, TrackOf, PathOf, KeepsTo, IsHypot;
    var segment := Segments(env, groups)[i];
    NeededRateLaw(env.hyp, segment, t);
    MoveDuration(segment, Needed(env.hyp, segment));
  }

  lemma MoveDuration(s: Segment, duration: int)
    ensures Move(s, duration).duration == duration && Move(s, duration).ease == LINEAR
  {
  }

  lemma NeededRateLaw(hyp: Hypot, s: Segment, t: real)
    requires IsHypot(hyp) && s.rate > 0.0 && 0.0 <= t <= 1.0
    ensures KeepsTo(hyp, SegmentPath(s), Needed(hyp, s), s.rate, t)
  {
    hide Needed, PeakSpeed, KeepsTo;
    NeededIsLeast(hyp, s, Needed(hyp, s));
    SegmentRateLaw(hyp, s, Needed(hyp, s), t);
  }

  lemma RateToTop(hyp: Hypot, path: Path, duration: int, rate: real, t: real)
    requires duration >= 0 && rate <= 88.0 && KeepsTo(hyp, path, duration, rate, t)
    ensures PathSpeed(hyp, path, t) * 1000.0 <= TOP_RATE * duration as real
  {
    hide PathSpeed;
    var d := duration as real;
    assert d * (88.0 - rate) >= 0.0;
  }

  lemma SegmentIsGentle(hyp: Hypot, s: Segment, duration: int)
    requires IsHypot(hyp) && 0.0 < s.rate <= 88.0 && duration > 0 && Enough(hyp, s, duration)
    ensures GentlePath(hyp, SegmentPath(s), duration)
  {
    hide IsHypot, PathSpeed, SegmentPath, PeakSpeed, Enough, KeepsTo;
    var path := SegmentPath(s);
    forall t: real | 0.0 <= t <= 1.0
      ensures PathSpeed(hyp, path, t) * 1000.0 <= TOP_RATE * duration as real
    {
      SegmentRateLaw(hyp, s, duration, t);
      RateToTop(hyp, path, duration, s.rate, t);
    }
  }

  lemma MovementIsGentle(env: Env, groups: seq<Group>, i: nat)
    requires IsHypot(env.hyp) && i < |Segments(env, groups)|
    ensures Gentle(env.hyp, TrackOf(env, groups), i + 1)
  {
    TakesItsPath(env, groups, i);
    TrackAt(env, groups, i);
    var segment := Segments(env, groups)[i];
    SpanBounds(env, groups, i);
    hide Segments, Spans, Moves, Keyframes, SegmentAt, Needed, Draws, TrackOf, PathOf, GentlePath, IsHypot, Enough;
    NeededIsLeast(env.hyp, segment, Needed(env.hyp, segment));
    SegmentIsGentle(env.hyp, segment, Needed(env.hyp, segment));
    MoveDuration(segment, Needed(env.hyp, segment));
  }

  lemma FloorIsLong(env: Env, groups: seq<Group>, i: nat, draw: nat)
    requires i + 1 < |Keyframes(groups)|
    ensures SegmentAt(env, groups, i, draw).floor >= MIN_HEAD_TRANSITION
  {
    hide ClampControl, HandleIn, HandleOut, SegmentFloor, SegmentRate, Keyframes;
  }

  lemma TrackIsGentle(env: Env, groups: seq<Group>)
    requires IsHypot(env.hyp)
    ensures AllGentle(env.hyp, TrackOf(env, groups))
  {
    hide Segments, Moves, Keyframes, GentlePath;
    var head := TrackOf(env, groups);
    forall i: nat | i < |head|
      ensures Gentle(env.hyp, head, i)
    {
      if i > 0 {
        MovementIsGentle(env, groups, i - 1);
      }
    }
  }

  lemma SpanBounds(env: Env, groups: seq<Group>, i: nat)
    requires i < |Spans(env, groups)|
    ensures Spans(env, groups)[i] >= MIN_HEAD_TRANSITION
  {
    TrackAt(env, groups, i);
    FloorIsLong(env, groups, i, Draws(i, groups));
    hide Segments, Spans, Moves, Keyframes, SegmentAt, PeakSpeed, Draws, TrackOf;
  }

  // ---- durations -----------------------------------------------------------

  predicate NonNegative(ds: seq<int>) {
    forall i :: 0 <= i < |ds| ==> ds[i] >= 0
  }

  lemma {:induction false} SumBounds(ds: seq<int>)
    requires NonNegative(ds)
    ensures Sum(ds) >= 0 && forall i :: 0 <= i < |ds| ==> ds[i] <= Sum(ds)
  {
    if ds != [] {
      var front := ds[..|ds| - 1];
      SumBounds(front);
      assert forall i :: 0 <= i < |front| ==> front[i] == ds[i];
    }
  }

  lemma {:induction false} GroupTimesTotal(spans: seq<int>, groups: seq<Group>, n: nat)
    requires n <= |groups| && |Poses(groups[..n])| <= |spans| && NonNegative(spans)
    ensures |GroupTimes(spans, groups, n)| == n && NonNegative(GroupTimes(spans, groups, n))
    ensures Sum(GroupTimes(spans, groups, n)) == Sum(spans[..|Poses(groups[..n])|])
  {
    if n > 0 {
      assert groups[..n][..n - 1] == groups[..n - 1];
      var from, to := |Poses(groups[..n - 1])|, |Poses(groups[..n])|;
      GroupTimesTotal(spans, groups, n - 1);
      var before, last := GroupTimes(spans, groups, n - 1), Sum(spans[from..to]);
      SumBounds(spans[from..to]);
      SumConcat(spans[..from], spans[from..to]);
      assert spans[..from] + spans[from..to] == spans[..to];
      assert (before + [last])[..n - 1] == before;
    }
  }

  /** Cutting the spans into groups loses no time. */
  lemma DurationsTotal(spans: seq<int>, groups: seq<Group>)
    requires |spans| == |Poses(groups)| + 1 && NonNegative(spans)
    ensures var ds := Durations(spans, groups);
      |ds| == |groups| + 2 && NonNegative(ds) && Sum(ds) == LEAD_IN + Sum(spans)
  {
    assert groups[..|groups|] == groups;
    var n := |Poses(groups)|;
    var times, last := GroupTimes(spans, groups, |groups|), Sum(spans[n..]);
    GroupTimesTotal(spans, groups, |groups|);
    SumBounds(spans[n..]);
    SumConcat(spans[..n], spans[n..]);
    assert spans[..n] + spans[n..] == spans;
    SumOne(LEAD_IN);
    SumOne(last);
    SumConcat([LEAD_IN] + times, [last]);
    SumConcat([LEAD_IN], times);
  }

  lemma SumOne(d: int)
    ensures Sum([d]) == d
  {
    assert [d][..0] == [];
  }

  lemma TrackTotal(env: Env, groups: seq<Group>)
    ensures Sum(HeadDurations(TrackOf(env, groups))) == LEAD_IN + Sum(Spans(env, groups))
  {
    hide Spans, TrackOf, Sum, HeadDurations;
    TrackDurations(env, groups);
    SumConcat([LEAD_IN], Spans(env, groups));
    SumOne(LEAD_IN);
  }

  lemma TrackDurations(env: Env, groups: seq<Group>)
    ensures HeadDurations(TrackOf(env, groups)) == [LEAD_IN] + Spans(env, groups)
  {
    hide Keyframes, Segments, Spans, Moves, Needed, HeadDurations;
    DurationsAfter(HeadContinue(LEAD_IN), Moves(env, groups), Spans(env, groups));
  }

  lemma DurationsAfter(first: HeadTransition, moves: seq<HeadTransition>, spans: seq<int>)
    requires |moves| == |spans| && forall i :: 0 <= i < |moves| ==> moves[i].duration == spans[i]
    ensures HeadDurations([first] + moves) == [first.duration] + spans
  {
  }

  // ---- a good plan ---------------------------------------------------------

  /** The head comes home at a safe rate, and every track can be cut from the durations. */
  ghost predicate GoodPlan(hyp: Hypot, count: nat, plan: Plan, budget: int) {
    && EndsNeutral(plan.head) && AllGentle(hyp, plan.head)
    && |plan.head| <= 20 && (forall t :: t in plan.head ==> ValidHeadTransition(t))
    && NonNegative(plan.durations) && 1 <= |plan.durations| <= count + 2
    && Sum(HeadDurations(plan.head)) == Sum(plan.durations) <= budget
  }

  lemma TrackIsGood(env: Env, beats: seq<Beat>, drifts: nat, scale: real, budget: int)
    requires IsHypot(env.hyp) && 1 <= |beats| <= MAX_SPEC_BEATS && drifts <= 2
    requires Fits(HeadTrack(env, beats, drifts, scale), budget)
    ensures GoodPlan(env.hyp, |beats|, HeadTrack(env, beats, drifts, scale).value, budget)
  {
    hide BeatPoses, Durations, Sum, Gentle, ValidHeadTransition, EndsNeutral, GroupTimes;
    hide SegmentAt, Needed, Draws, Move, Poses, HeadDurations, Shrunk;
    var groups := Groups(beats, drifts, scale);
    assert HeadTrack(env, beats, drifts, scale).value
        == Plan(TrackOf(env, groups), Durations(Spans(env, groups), groups));
    GroupsTrackIsGood(env, groups, budget);
  }

  lemma GroupsTrackIsGood(env: Env, groups: seq<Group>, budget: int)
    requires IsHypot(env.hyp) && 1 <= |groups| <= MAX_SPEC_BEATS && PosesOk(groups)
    requires forall g :: 0 <= g < |groups| ==> |groups[g].poses| <= 3
    requires forall i :: 0 <= i < |Spans(env, groups)| ==> Spans(env, groups)[i] <= MAX_HEAD_TRANSITION
    requires Sum(Durations(Spans(env, groups), groups)) <= budget
    ensures GoodPlan(env.hyp, |groups|, Plan(TrackOf(env, groups), Durations(Spans(env, groups), groups)), budget)
  {
    hide Segments, Spans, Moves, TrackOf, Durations, Keyframes, Poses, Sum, HeadDurations;
    hide AllGentle, EndsNeutral, ValidHeadTransition, NonNegative, PosesOk;
    TrackIsGentle(env, groups);
    TrackTotal(env, groups);
    TrackIsValid(env, groups);
    TrackEnds(env, groups);
    SpansNonNegative(env, groups);
    TrackIsShort(env, groups);
    DurationsTotal(Spans(env, groups), groups);
  }

  lemma SpansNonNegative(env: Env, groups: seq<Group>)
    ensures |Spans(env, groups)| == |Poses(groups)| + 1 && NonNegative(Spans(env, groups))
  {
    hide Spans, Poses;
    var spans := Spans(env, groups);
    forall i | 0 <= i < |spans| ensures spans[i] >= 0 {
      SpanBounds(env, groups, i);
    }
  }

  lemma TrackIsShort(env: Env, groups: seq<Group>)
    requires |groups| <= MAX_SPEC_BEATS && forall g :: 0 <= g < |groups| ==> |groups[g].poses| <= 3
    ensures |TrackOf(env, groups)| <= 20
  {
    hide Poses, Moves;
    FewPoses(groups, 3);
  }

  lemma TrackEnds(env: Env, groups: seq<Group>)
    ensures EndsNeutral(TrackOf(env, groups))
  {
    hide Segments, Spans;
    var last := |Keyframes(groups)| - 2;
    assert Moves(env, groups)[last] == Move(Segments(env, groups)[last], Spans(env, groups)[last]);
    assert Segments(env, groups)[last].end == Keyframes(groups)[last + 1];
  }

  lemma TrackIsValid(env: Env, groups: seq<Group>)
    requires PosesOk(groups)
    requires forall i :: 0 <= i < |Spans(env, groups)| ==> Spans(env, groups)[i] <= MAX_HEAD_TRANSITION
    ensures forall t :: t in TrackOf(env, groups) ==> ValidHeadTransition(t)
  {
    hide Segments, Spans, Moves, Keyframes, PosesOk;
    var head := TrackOf(env, groups);
    LeadIsValid();
    hide ValidHeadTransition;
    forall i | 0 <= i < |head| ensures ValidHeadTransition(head[i]) {
      if i > 0 {
        MoveIsValid(env, groups, i - 1);
      } else {
        assert head[0] == HeadContinue(LEAD_IN);
      }
    }
  }

  lemma LeadIsValid()
    ensures ValidHeadTransition(HeadContinue(LEAD_IN))
  {
  }

  lemma MoveIsValid(env: Env, groups: seq<Group>, i: nat)
    requires i < |Spans(env, groups)| && PosesOk(groups)
    requires Spans(env, groups)[i] <= MAX_HEAD_TRANSITION
    ensures ValidHeadTransition(TrackOf(env, groups)[i + 1])
  {
    var segment, span := Segments(env, groups)[i], Spans(env, groups)[i];
    SpanBounds(env, groups, i);
    TrackAt(env, groups, i);
    SegmentEnds(env, groups, i, Draws(i, groups));
    KeyframesOk(groups, i + 1);
    hide Segments, Spans, Moves, Keyframes, SegmentAt, Needed, Draws, TrackOf, PosesOk, PeakSpeed, PoseOk, ControlOk;
    MoveOk(segment, span);
  }

  lemma MoveOk(s: Segment, span: int)
    requires PoseOk(s.end) && ControlOk(s.one) && ControlOk(s.two) && 0 <= span <= MAX_HEAD_TRANSITION
    ensures ValidHeadTransition(Move(s, span))
  {
  }

  // ---- the minimal figure --------------------------------------------------

  lemma {:induction false} FirstLoopFits(hyp: Hypot, reach: real, limit: real)
    ensures var loop := FirstLoop(hyp, reach, limit);
      loop.Some? ==>
        && PeakSpeed(hyp, loop.value) <= limit
        && loop.value.start == NEUTRAL && loop.value.end == NEUTRAL && loop.value.floor == 0
        && loop.value.rate == 50.0 && ControlOk(loop.value.one) && ControlOk(loop.value.two)
    decreases (reach * 2.0).Floor
  {
    hide PeakSpeed, ControlOk;
    if reach >= 0.5 && PeakSpeed(hyp, Loop(reach)) > limit {
      FirstLoopFits(hyp, reach - 0.5, limit);
    }
  }

  /** Standing still commands no rate at all. */
  lemma StillIsGentle(hyp: Hypot, duration: int)
    requires IsHypot(hyp) && duration > 0
    ensures GentlePath(hyp, SegmentPath(Segment(NEUTRAL, NEUTRAL, NEUTRAL, NEUTRAL, 0, 50.0)), duration)
  {
    var zero := Vec(0.0, 0.0);
    forall t: real | 0.0 <= t <= 1.0
      ensures PathSpeed(hyp, Path(zero, zero, zero, zero), t) * 1000.0 <= TOP_RATE * duration as real
    {
      assert CubicDerivative(zero, zero, zero, zero, t) == zero;
      ZeroLength(hyp);
    }
  }

  lemma ZeroLength(hyp: Hypot)
    requires IsHypot(hyp)
    ensures hyp(0.0, 0.0) == 0.0
  {
    var n := hyp(0.0, 0.0);
    assert n * n == 0.0;
    if n > 0.0 {
      ProductStrict(0.0, n);
    }
  }

  predicate LoopOk(s: Segment) {
    s.start == NEUTRAL && s.end == NEUTRAL && ControlOk(s.one) && ControlOk(s.two)
  }

  /** A lead-in and one closed figure make a good plan. */
  lemma FigureIsGood(hyp: Hypot, lead: int, s: Segment, span: int)
    requires LoopOk(s) && lead >= 1 && span >= 1 && lead + span <= MAX_MOTION_MILLISECONDS
    requires GentlePath(hyp, SegmentPath(s), span)
    ensures GoodPlan(hyp, 1, Plan([HeadContinue(lead), Move(s, span)], [lead, span]), lead + span)
  {
    hide GentlePath;
    var head := [HeadContinue(lead), Move(s, span)];
    assert Current(head, 1) == Current(head, 0);
    assert PathOf(head, 1) == SegmentPath(s);
    assert Gentle(hyp, head, 0) && Gentle(hyp, head, 1);
    SumTwo(lead, span);
    assert HeadDurations(head) == [lead, span];
  }

  lemma SumTwo(a: int, b: int)
    ensures Sum([a, b]) == a + b
  {
    assert [a, b][..1] == [a];
    SumOne(a);
  }

  lemma SettleIsGood(hyp: Hypot, ms: int)
    requires IsHypot(hyp) && 1 <= ms <= MAX_MOTION_MILLISECONDS
    ensures GoodPlan(hyp, 1, Plan([HeadSettle(ms)], [ms]), ms)
  {
    hide GentlePath;
    var head := [HeadSettle(ms)];
    StillIsGentle(hyp, ms);
    assert Gentle(hyp, head, 0);
    SumOne(ms);
    assert HeadDurations(head) == [ms];
  }

  lemma LoopInTime(hyp: Hypot, s: Segment, span: int)
    requires s.rate == 50.0 && s.floor == 0 && span >= 1 && PeakSpeed(hyp, s) <= LoopLimit(span)
    ensures Enough(hyp, s, span)
  {
    hide PeakSpeed;
  }

  /** However small the budget, the minimal figure is safe and fits it. */
  lemma MinimalIsGood(hyp: Hypot, budget: int)
    requires IsHypot(hyp) && budget <= MAX_MOTION_MILLISECONDS
    ensures GoodPlan(hyp, 1, MinimalHead(hyp, budget), MaxI(1, budget))
  {
    hide GoodPlan, GentlePath, FirstLoop, LoopLimit, PeakSpeed, IsHypot, Move, HeadContinue;
    var ms := MaxI(1, budget);
    var lead := MaxI(1, MinI(LEAD_IN, ms / 4));
    var span := ms - lead;
    if span < 1 {
      SettleIsGood(hyp, ms);
    } else {
      var limit := LoopLimit(span);
      var reach := MinR(15.0, limit / 3.0);
      var loop := FirstLoop(hyp, reach, limit);
      FirstLoopFits(hyp, reach, limit);
      var still := Segment(NEUTRAL, NEUTRAL, NEUTRAL, NEUTRAL, 0, 50.0);
      if loop.Some? {
        LoopInTime(hyp, loop.value, span);
        SegmentIsGentle(hyp, loop.value, span);
        FigureIsGood(hyp, lead, loop.value, span);
      } else {
        StillIsGentle(hyp, span);
        FigureIsGood(hyp, lead, still, span);
        SettleIsStill(span);
      }
    }
  }

  lemma SettleIsStill(span: int)
    ensures HeadSettle(span) == Move(Segment(NEUTRAL, NEUTRAL, NEUTRAL, NEUTRAL, 0, 50.0), span)
  {
  }

  /** The reach after `k` steps down of half a degree. */
  function Lowered(reach: real, k: nat): real {
    reach - 0.5 * k as real
  }

  /** The minimal figure is the widest loop that is slow enough, in steps of half a degree. */
  lemma {:induction false} FirstLoopIsWidest(hyp: Hypot, reach: real, limit: real) returns (steps: nat)
    ensures var r, at := FirstLoop(hyp, reach, limit), Lowered(reach, steps);
      && (r.Some? <==> at >= 0.5)
      && (r.Some? ==> r.value == Loop(at) && PeakSpeed(hyp, Loop(at)) <= limit)
    ensures forall k: nat :: k < steps && Lowered(reach, k) >= 0.5 ==> PeakSpeed(hyp, Loop(Lowered(reach, k))) > limit
    decreases (reach * 2.0).Floor
  {
    hide PeakSpeed, Loop;
    steps := 0;
    if reach >= 0.5 && PeakSpeed(hyp, Loop(reach)) > limit {
      var rest := FirstLoopIsWidest(hyp, reach - 0.5, limit);
      steps := rest + 1;
      assert Lowered(reach, steps) == Lowered(reach - 0.5, rest);
      forall k: nat | k < steps && Lowered(reach, k) >= 0.5
        ensures PeakSpeed(hyp, Loop(Lowered(reach, k))) > limit
      {
        if k > 0 {
          assert Lowered(reach, k) == Lowered(reach - 0.5, k - 1);
        }
      }
    }
  }

  /** Without time for a beat: a quarter of the time, 250 ms at most, to join whatever posture the
      head is in, and then the widest loop that keeps to 50 degrees a second, in steps of half a
      degree from 15 or from what a straight way out and back would allow; or standing still, if even
      the last step is too wide. */
  lemma MinimalIs(hyp: Hypot, budget: int) returns (steps: nat)
    ensures var ms := if budget < 1 then 1 else budget;
      var lead := if ms >= 1000 then 250 else if ms >= 4 then ms / 4 else 1;
      var limit := (ms - lead) as real / 20.0;
      var top := if limit >= 45.0 then 15.0 else limit / 3.0;
      var at := Lowered(top, steps);
      var plan := MinimalHead(hyp, budget);
      if ms == 1 then plan == Plan([HeadSettle(1)], [1])
      else
        && plan.durations == [lead, ms - lead]
        && plan.head == [HeadContinue(lead), if at >= 0.5 then Move(Loop(at), ms - lead) else HeadSettle(ms - lead)]
        && (at >= 0.5 ==> PeakSpeed(hyp, Loop(at)) <= limit)
        && forall k: nat :: k < steps && Lowered(top, k) >= 0.5 ==> PeakSpeed(hyp, Loop(Lowered(top, k))) > limit
  {
    hide PeakSpeed, Loop, FirstLoop, Move, Lowered;
    var ms := MaxI(1, budget);
    var span := ms - MaxI(1, MinI(LEAD_IN, ms / 4));
    var limit := LoopLimit(span);
    assert limit == span as real / 20.0;
    steps := FirstLoopIsWidest(hyp, MinR(15.0, limit / 3.0), limit);
  }

  /** Such a loop leaves and comes back alike on both sides. */
  lemma LoopIs(reach: real)
    requires 0.0 <= reach <= 15.0
    ensures var one := Pose(Round(reach), Round(reach * 0.45));
      Loop(reach).one == one && Loop(reach).two == Pose(-one.x, one.y)
  {
    assert (-reach).Floor == if reach == reach.Floor as real then -reach.Floor else -reach.Floor - 1;
  }

  /** The minimal figure takes all the time there is. */
  lemma MinimalTakesAllTime(hyp: Hypot, budget: int)
    ensures Sum(MinimalHead(hyp, budget).durations) == MaxI(1, budget)
    ensures HeadDurations(MinimalHead(hyp, budget).head) == MinimalHead(hyp, budget).durations
  {
    hide FirstLoop, LoopLimit;
    var ms := MaxI(1, budget);
    var lead := MaxI(1, MinI(LEAD_IN, ms / 4));
    SumOne(ms);
    SumOne(lead);
    SumOne(ms - lead);
    SumConcat([lead], [ms - lead]);
    assert [lead] + [ms - lead] == [lead, ms - lead];
  }

  // ---- the plan chosen -----------------------------------------------------

  lemma {:induction false} ShrunkIsTrack(env: Env, beats: seq<Beat>, drifts: nat, i: nat)
    requires drifts <= 2 && i <= 4
    ensures var r := Shrunk(env, beats, drifts, i);
      r.Some? ==> exists k: nat :: k < 4 && r == HeadTrack(env, beats, drifts, SCALES[k])
    decreases 4 - i
  {
    hide HeadTrack;
    if i < 4 && HeadTrack(env, beats, drifts, SCALES[i]).None? {
      ShrunkIsTrack(env, beats, drifts, i + 1);
    }
  }

  lemma ShrunkIsGood(env: Env, beats: seq<Beat>, drifts: nat, budget: int)
    requires IsHypot(env.hyp) && 1 <= |beats| <= MAX_SPEC_BEATS && drifts <= 2
    requires Fits(Shrunk(env, beats, drifts, 0), budget)
    ensures GoodPlan(env.hyp, |beats|, Shrunk(env, beats, drifts, 0).value, budget)
  {
    hide HeadTrack, GoodPlan, Sum, IsHypot;
    ShrunkIsTrack(env, beats, drifts, 0);
    var k: nat :| k < 4 && Shrunk(env, beats, drifts, 0) == HeadTrack(env, beats, drifts, SCALES[k]);
    TrackIsGood(env, beats, drifts, SCALES[k], budget);
  }

  /** `plan` is the head track at scale `s`, and at every larger of the four scales there is none. */
  ghost predicate LargestTrack(env: Env, beats: seq<Beat>, drifts: nat, s: real, plan: Plan)
    requires drifts <= 2
  {
    && (s == 1.0 || s == 0.8 || s == 0.64 || s == 0.5)
    && HeadTrack(env, beats, drifts, s) == Some(plan)
    && (s < 1.0 ==> HeadTrack(env, beats, drifts, 1.0).None?)
    && (s < 0.8 ==> HeadTrack(env, beats, drifts, 0.8).None?)
    && (s < 0.64 ==> HeadTrack(env, beats, drifts, 0.64).None?)
  }

  /** The largest head track of these beats with so many drifts fits the budget. */
  ghost predicate TrackFits(env: Env, beats: seq<Beat>, drifts: nat, budget: int, plan: Plan)
    requires drifts <= 2
  {
    (exists s :: LargestTrack(env, beats, drifts, s, plan)) && Sum(plan.durations) <= budget
  }

  lemma LargestAt(env: Env, beats: seq<Beat>, drifts: nat, plan: Plan)
    requires drifts <= 2
    ensures Shrunk(env, beats, drifts, 0) == Some(plan) <==> exists s :: LargestTrack(env, beats, drifts, s, plan)
  {
    hide HeadTrack;
    var a, b := HeadTrack(env, beats, drifts, 1.0), HeadTrack(env, beats, drifts, 0.8);
    var c, d := HeadTrack(env, beats, drifts, 0.64), HeadTrack(env, beats, drifts, 0.5);
    ShrunkUnrolled(env, beats, drifts);
    hide Shrunk;
    if Shrunk(env, beats, drifts, 0) == Some(plan) {
      var s := if a.Some? then 1.0 else if b.Some? then 0.8 else if c.Some? then 0.64 else 0.5;
      assert LargestTrack(env, beats, drifts, s, plan);
    }
  }

  lemma ShrunkUnrolled(env: Env, beats: seq<Beat>, drifts: nat)
    requires drifts <= 2
    ensures Shrunk(env, beats, drifts, 0)
         == if HeadTrack(env, beats, drifts, 1.0).Some? then HeadTrack(env, beats, drifts, 1.0)
            else if HeadTrack(env, beats, drifts, 0.8).Some? then HeadTrack(env, beats, drifts, 0.8)
            else if HeadTrack(env, beats, drifts, 0.64).Some? then HeadTrack(env, beats, drifts, 0.64)
            else HeadTrack(env, beats, drifts, 0.5)
  {
    hide HeadTrack;
    assert Shrunk(env, beats, drifts, 4) == None;
    assert Shrunk(env, beats, drifts, 3) == HeadTrack(env, beats, drifts, 0.5);
  }

  lemma FitsIff(env: Env, beats: seq<Beat>, drifts: nat, budget: int)
    requires drifts <= 2
    ensures var p := Shrunk(env, beats, drifts, 0);
      && (Fits(p, budget) ==> TrackFits(env, beats, drifts, budget, p.value))
      && forall plan :: TrackFits(env, beats, drifts, budget, plan) ==> Fits(p, budget) && p.value == plan
  {
    hide HeadTrack, Shrunk, LargestTrack, Sum;
    var p := Shrunk(env, beats, drifts, 0);
    if p.Some? {
      LargestAt(env, beats, drifts, p.value);
    }
    forall plan | TrackFits(env, beats, drifts, budget, plan) ensures Fits(p, budget) && p.value == plan {
      LargestAt(env, beats, drifts, plan);
    }
  }

  /** No track of these beats fits, with two drifts or with one. */
  ghost predicate NothingFits(env: Env, beats: seq<Beat>, budget: int) {
    forall plan :: !TrackFits(env, beats, 2, budget, plan) && !TrackFits(env, beats, 1, budget, plan)
  }

  /** What is kept of the beats is the longest prefix with a track that fits; the track is the one
      with two drifts in each hold if that fits, else the one with a single drift, and at the largest
      scale there is one for.  If not even the first beat fits, it is the minimal figure. */
  lemma {:induction false} PlanIsLargest(env: Env, beats: seq<Beat>, count: nat, budget: int)
    requires beats != [] && count <= |beats|
    ensures var (kept, plan) := HeadPlan(env, beats, count, budget);
      && 1 <= |kept| <= MaxI(1, count) && kept == beats[..|kept|]
      && (forall c: nat :: |kept| < c <= count ==> NothingFits(env, beats[..c], budget))
      && (|| TrackFits(env, kept, 2, budget, plan)
          || (TrackFits(env, kept, 1, budget, plan) && forall other :: !TrackFits(env, kept, 2, budget, other))
          || (&& (count > 0 ==> |kept| == 1 && NothingFits(env, kept, budget))
              && plan == MinimalHead(env.hyp, budget)))
  {
    hide Shrunk, MinimalHead, Sum, TrackFits;
    if count > 0 {
      var first := beats[..count];
      FitsIff(env, first, 2, budget);
      FitsIff(env, first, 1, budget);
      if !Fits(Shrunk(env, first, 2, 0), budget) && !Fits(Shrunk(env, first, 1, 0), budget) {
        PlanIsLargest(env, beats, count - 1, budget);
      }
    }
  }

  /** Whatever is kept is a prefix of the beats, its plan is good, and no longer prefix fits. */
  lemma {:induction false} PlanIsGood(env: Env, beats: seq<Beat>, count: nat, budget: int)
    requires IsHypot(env.hyp) && beats != [] && count <= |beats| && |beats| <= MAX_SPEC_BEATS
    requires budget <= MAX_MOTION_MILLISECONDS
    ensures var (kept, plan) := HeadPlan(env, beats, count, budget);
      1 <= |kept| <= MaxI(1, count) && kept == beats[..|kept|] && GoodPlan(env.hyp, |kept|, plan, MaxI(1, budget))
    ensures var (kept, plan) := HeadPlan(env, beats, count, budget);
      forall c: nat :: |kept| < c <= count ==> NothingFits(env, beats[..c], budget)
  {
    hide Shrunk, GoodPlan, MinimalHead, IsHypot, Sum, NothingFits, TrackFits;
    PlanIsLargest(env, beats, count, budget);
    PlanKeptIsGood(env, beats, count, budget);
  }

  lemma {:induction false} PlanKeptIsGood(env: Env, beats: seq<Beat>, count: nat, budget: int)
    requires IsHypot(env.hyp) && beats != [] && count <= |beats| && |beats| <= MAX_SPEC_BEATS
    requires budget <= MAX_MOTION_MILLISECONDS
    ensures var (kept, plan) := HeadPlan(env, beats, count, budget);
      GoodPlan(env.hyp, |kept|, plan, MaxI(1, budget))
  {
    hide Shrunk, GoodPlan, MinimalHead, IsHypot, Sum;
    if count == 0 {
      MinimalIsGood(env.hyp, budget);
    } else if Fits(Shrunk(env, beats[..count], 2, 0), budget) {
      ShrunkIsGood(env, beats[..count], 2, budget);
      Roomier(env.hyp, count, Shrunk(env, beats[..count], 2, 0).value, budget);
    } else if Fits(Shrunk(env, beats[..count], 1, 0), budget) {
      ShrunkIsGood(env, beats[..count], 1, budget);
      Roomier(env.hyp, count, Shrunk(env, beats[..count], 1, 0).value, budget);
    } else {
      PlanKeptIsGood(env, beats, count - 1, budget);
    }
  }

  lemma Roomier(hyp: Hypot, count: nat, plan: Plan, budget: int)
    requires GoodPlan(hyp, count, plan, budget)
    ensures GoodPlan(hyp, count, plan, MaxI(1, budget))
  {
    hide AllGentle, Sum;
  }

  // ---- the other tracks ----------------------------------------------------

  lemma AntennaValuesOk(beats: seq<Beat>, groups: nat, i: nat)
    requires groups > 0 && i < |AntennaValues(beats, groups)|
    ensures var v := AntennaValues(beats, groups)[i];
      ValidAntenna(v) && (v.pos.Some? <==> !Energetic(beats))
  {
    hide Round, Aim, Energetic;
    var full := AntennaFull(beats);
    if i < |full| && 1 <= i <= |beats| {
      var b := beats[i - 1];
      assert full[i] == if Energetic(beats) then Shake(b) else Sway(b, i - 1);
      SwayOk(b, i - 1);
    }
  }

  lemma SwayOk(b: Beat, index: nat)
    ensures ValidAntenna(Sway(b, index))
  {
    hide Aim, Round;
    var aim := Aim(b.direction).y;
    var vertical := if aim != 0.0 then aim else if index % 2 == 0 then 0.5 else -0.5;
    var swing := MaxR(-1.0, MinR(1.0, vertical * Reach(b.energy)));
    assert -1.0 <= swing <= 1.0;
    assert -100 <= Round(swing * 100.0) <= 100;
  }

  /** The antenna keeps one mode, starts and ends at rest, and uses every group's time. */
  lemma AntennaIsGood(beats: seq<Beat>, durations: seq<int>)
    requires 1 <= |beats| <= MAX_SPEC_BEATS && 1 <= |durations| <= |beats| + 2
    requires NonNegative(durations) && Sum(durations) <= MAX_MOTION_MILLISECONDS
    ensures var track := AntennaTrack(beats, durations);
      && AntennaDurations(track) == durations && ValidAntennaTrack(track)
      && track[0].start == AntennaRest(beats) && track[|track| - 1].end == AntennaRest(beats)
      && (forall i :: 0 < i < |track| ==> track[i].start == track[i - 1].end)
  {
    hide Sum, AntennaRest, Energetic, ValidAntenna, Shake, Sway;
    var values, track := AntennaValues(beats, |durations|), AntennaTrack(beats, durations);
    assert |values| == |durations| && values[|values| - 1] == AntennaRest(beats);
    SumBounds(durations);
    forall i | 0 <= i < |track| ensures ValidAntennaTransition(track[i]) {
      AntennaValuesOk(beats, |durations|, i);
      RestOk(beats);
      if i > 0 {
        AntennaValuesOk(beats, |durations|, i - 1);
      }
    }
    hide ValidAntennaTransition, AntennaValues;
    assert AntennaDurations(track) == durations;
  }

  lemma RestOk(beats: seq<Beat>)
    ensures ValidAntenna(AntennaRest(beats)) && (AntennaRest(beats).pos.Some? <==> !Energetic(beats))
  {
    hide Energetic;
  }

  lemma LedAtOk(beats: seq<Beat>, k: Led, group: nat, duration: int)
    requires ValidDuration(duration)
    ensures ValidLedTransition(LedAt(beats, k, group, duration)) && LedAt(beats, k, group, duration).duration == duration
  {
    hide BeatOf;
  }

  lemma LedsAreGood(beats: seq<Beat>, k: Led, durations: seq<int>)
    requires |durations| <= MAX_SPEC_BEATS + 2
    requires NonNegative(durations) && Sum(durations) <= MAX_MOTION_MILLISECONDS
    ensures LedDurations(LedTrack(beats, k, durations)) == durations && ValidLed(LedTrack(beats, k, durations))
  {
    hide Sum, LedAt, ValidLedTransition;
    SumBounds(durations);
    var track := LedTrack(beats, k, durations);
    forall i | 0 <= i < |track| ensures ValidLedTransition(track[i]) && track[i].duration == durations[i] {
      LedAtOk(beats, k, i, durations[i]);
    }
    assert LedDurations(track) == durations;
  }

  // ---- the document --------------------------------------------------------

  function Assembled(kept: seq<Beat>, plan: Plan): Document
    requires plan.durations != []
  {
    Document(plan.head, AntennaTrack(kept, plan.durations),
             map k | k in LEDS :: LedTrack(kept, k, plan.durations))
  }

  /** All seven tracks last equally long. */
  predicate TotalsAgree(d: Document) {
    && Sum(AntennaDurations(d.antenna)) == Sum(HeadDurations(d.head))
    && forall k :: k in d.leds ==> Sum(LedDurations(d.leds[k])) == Sum(HeadDurations(d.head))
  }

  ghost predicate GoodDocument(hyp: Hypot, d: Document, budget: int) {
    && ValidDocument(d) && TotalsAgree(d) && Sum(HeadDurations(d.head)) <= budget
    && EndsNeutral(d.head) && AllGentle(hyp, d.head)
  }

  lemma AssembledIsGood(hyp: Hypot, kept: seq<Beat>, plan: Plan, budget: int)
    requires 1 <= |kept| <= MAX_SPEC_BEATS && GoodPlan(hyp, |kept|, plan, budget)
    requires budget <= MAX_MOTION_MILLISECONDS
    ensures GoodDocument(hyp, Assembled(kept, plan), budget)
  {
    hide AntennaTrack, LedTrack, Sum, AllGentle, EndsNeutral, HeadDurations, AntennaDurations, LedDurations;
    hide ValidAntennaTrack, ValidLed, ValidHeadTransition;
    AntennaIsGood(kept, plan.durations);
    forall k: Led ensures ValidLed(LedTrack(kept, k, plan.durations))
      && LedDurations(LedTrack(kept, k, plan.durations)) == plan.durations
    {
      LedsAreGood(kept, k, plan.durations);
    }
  }

  // ---- rendering -----------------------------------------------------------

  datatype RenderError = NoBeats | InvalidDocument | TotalsDisagree | NotNeutral | Unsafe

  /** No sample of the path leaves the box the head may move in. */
  ghost predicate StaysInside(head: seq<HeadTransition>)
    requires Eased(head)
  {
    forall i: nat :: i < |head| ==> ExcursionWithin(head, i)
  }

  function Totals(d: Document): set<int> {
    {Sum(HeadDurations(d.head)), Sum(AntennaDurations(d.antenna))}
    + set k | k in d.leds :: Sum(LedDurations(d.leds[k]))
  }

  lemma OneTotal(d: Document)
    requires TotalsAgree(d)
    ensures |Totals(d)| == 1
  {
    hide Sum, HeadDurations, AntennaDurations, LedDurations;
    assert Totals(d) == {Sum(HeadDurations(d.head))};
  }

  lemma GoodIsEased(hyp: Hypot, d: Document, budget: int)
    requires GoodDocument(hyp, d, budget)
    ensures Eased(d.head)
  {
    hide AllGentle, Sum;
    forall i | 0 <= i < |d.head| ensures |d.head[i].ease| == 4 {
      assert d.head[i] in d.head;
    }
  }

  /** The checks on the way out.  Of a good document only the excursion can be refused. */
  method Checked(hyp: Hypot, document: Document, ghost budget: int) returns (r: Result<Document, RenderError>)
    requires IsHypot(hyp) && GoodDocument(hyp, document, budget)
    ensures Eased(document.head)
    ensures r == if StaysInside(document.head) then Ok(document) else Err(Unsafe)
  {
    GoodIsEased(hyp, document, budget);
    AllWithinRate(hyp, document.head);
    hide ExcursionWithin, IsHypot, Peak, RateOf, FarthestX, FarthestY, AllGentle;
    OneTotal(document);
    hide TotalsAgree;
    var valid := ValidateMotionDocument(document);
    var totals := Totals(document);
    var report := HeadRateReport(hyp, document.head);
    SafeIff(hyp, document.head, report);
    return
      if !valid then Err(InvalidDocument)
      else if |totals| != 1 then Err(TotalsDisagree)
      else if !EndsNeutral(document.head) then Err(NotNeutral)
      else if !IsSafe(report) then Err(Unsafe)
      else Ok(document);
  }

  /** What is kept of the beats, and the plan for it. */
  function Planned(env: Env, beats: seq<Beat>, budget: int): (seq<Beat>, Plan)
    requires beats != []
  {
    var first := beats[..MinI(|beats|, MAX_SPEC_BEATS)];
    HeadPlan(env, first, |first|, MinI(budget, MAX_MOTION_MILLISECONDS))
  }

  /** The document for what is kept of the beats. */
  method Assemble(kept: seq<Beat>, plan: Plan) returns (document: Document)
    requires plan.durations != []
    ensures document == Assembled(kept, plan)
  {
    hide AntennaTrack, LedTrack;
    var antenna := RenderAntenna(kept, plan.durations);
    var leds := RenderLeds(kept, plan.durations);
    document := Document(plan.head, antenna, leds);
  }

  lemma PlannedIsGood(env: Env, beats: seq<Beat>, budget: int)
    requires IsHypot(env.hyp) && beats != []
    ensures var (kept, plan) := Planned(env, beats, budget);
      && plan.durations != []
      && GoodDocument(env.hyp, Assembled(kept, plan), MaxI(1, MinI(budget, MAX_MOTION_MILLISECONDS)))
  {
    hide HeadPlan, GoodDocument, IsHypot, AllGentle, EndsNeutral, ValidHeadTransition, Sum;
    var first := beats[..MinI(|beats|, MAX_SPEC_BEATS)];
    var limit := MinI(budget, MAX_MOTION_MILLISECONDS);
    PlanIsGood(env, first, |first|, limit);
    var (kept, plan) := Planned(env, beats, budget);
    hide Assembled, GoodPlan;
    AssembledIsGood(env.hyp, kept, plan, MaxI(1, limit));
  }

  /** Render, checking everything on the way out.  Only the excursion check can ever refuse:
      the document is always valid, evenly timed, neutral at the end and slow enough. */
  method RenderMotionDocument(env: Env, beats: seq<Beat>, budget: int) returns (r: Result<Document, RenderError>)
    requires IsHypot(env.hyp)
    ensures beats == [] <==> r == Err(NoBeats)
    ensures beats != [] ==>
      var (kept, plan) := Planned(env, beats, budget);
      && plan.durations != [] && Eased(plan.head)
      && GoodDocument(env.hyp, Assembled(kept, plan), MaxI(1, MinI(budget, MAX_MOTION_MILLISECONDS)))
      && r == if StaysInside(plan.head) then Ok(Assembled(kept, plan)) else Err(Unsafe)
  {
    if beats == [] {
      return Err(NoBeats);
    }
    hide HeadPlan, GoodDocument, StaysInside, IsHypot, Eased, EndsNeutral, Sum;
    var limit := MinI(budget, MAX_MOTION_MILLISECONDS);
    var kept, plan := PlanHead(env, beats[..MinI(|beats|, MAX_SPEC_BEATS)], limit);
    PlannedIsGood(env, beats, budget);
    hide Assembled;
    var document := Assemble(kept, plan);
    r := Checked(env.hyp, document, MaxI(1, limit));
  }

  lemma AllWithinRate(hyp: Hypot, head: seq<HeadTransition>)
    requires Eased(head) && AllGentle(hyp, head)
    ensures forall i: nat :: i < |head| ==> RateWithin(hyp, head, i, SAFE_RATE)
  {
    hide Gentle, RateWithin;
    forall i: nat | i < |head| ensures RateWithin(hyp, head, i, SAFE_RATE) {
      GentleIsWithinRate(hyp, head, i);
    }
  }
}
