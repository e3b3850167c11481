/**
  Expanding a choreography spec into a seven-track motion document.

  The pure geometry is written as functions; the parts of the renderer that build lists in
  loops are methods, each proved equal to a function of the same inputs.  The random number
  generator is a parameter: `jitter(k)` is its k-th draw.  So is `hyp`, the Euclidean length.
*/
module MotionRenderer {
  import opened Wrappers
  import opened HeadGeometry
  import opened MotionDocument
  import opened MotionSpec

  // ---- constants -----------------------------------------------------------

  type Draw = d: int | -60 <= d <= 60

  datatype Env = Env(hyp: Hypot, jitter: nat -> Draw)

  const LINEAR: seq<real> := [0.0, 0.0, 1.0, 1.0]
  const LED_SNAP: seq<real> := [0.9, 0.0, 1.0, 1.0]
  const LED_FADE: seq<real> := [0.3, 0.0, 0.7, 1.0]
  const MIN_HEAD_TRANSITION := 600
  const MAX_HEAD_TRANSITION := 1600
  const LEAD_IN := 250

  function Aim(d: Direction): Vec {
    match d
    case Center => Vec(0.0, 0.0)
    case Left => Vec(-1.0, 0.0)
    case Right => Vec(1.0, 0.0)
    case Up => Vec(0.0, 1.0)
    case Down => Vec(0.0, -1.0)
    case UpLeft => Vec(-0.8, 0.8)
    case UpRight => Vec(0.8, 0.8)
    case DownLeft => Vec(-0.8, -0.8)
    case DownRight => Vec(0.8, -0.8)
  }

  function TargetRate(e: Energy): real {
    match e case Low => 50.0 case Mid => 68.0 case High => 88.0
  }

  function Reach(e: Energy): real {
    match e case Low => 0.4 case Mid => 0.7 case High => 1.0
  }

  // ---- rounding and clamping -----------------------------------------------

  /** Round half to even. */
  function Round(x: real): (r: int)
    ensures x - 0.5 <= r as real <= x + 0.5
  {
    var f := x.Floor;
    var d := x - f as real;
    if d < 0.5 then f
    else if d > 0.5 then f + 1
    else if f % 2 == 0 then f else f + 1
  }

  function Ceil(x: real): (r: int)
    ensures r as real - 1.0 < x <= r as real
  {
    -((-x).Floor)
  }

  function Clamp(x: int, limit: int): (r: int)
    requires limit >= 0
    ensures -limit <= r <= limit
  {
    if x < -limit then -limit else if x > limit then limit else x
  }

  /** Whole degrees. */
  datatype Pose = Pose(x: int, y: int)

  const NEUTRAL := Pose(0, 0)

  function ToVec(p: Pose): Vec {
    Vec(p.x as real, p.y as real)
  }

  function ToPoint(p: Pose): Point {
    At(p.x, p.y)
  }

  predicate PoseOk(p: Pose) {
    ValidEndpoint(ToPoint(p))
  }

  predicate ControlOk(p: Pose) {
    ValidControl(ToPoint(p))
  }

  function ClampPose(x: real, y: real): (p: Pose)
    ensures PoseOk(p)
  {
    Pose(Clamp(Round(x), MAX_HEAD_ANGLE), Clamp(Round(y), MAX_VERTICAL_ANGLE))
  }

  function ClampControl(v: Vec): (p: Pose)
    ensures ControlOk(p)
  {
    Pose(Clamp(Round(v.x), MAX_CONTROL_ANGLE), Clamp(Round(v.y), MAX_CONTROL_ANGLE))
  }

  // ---- poses ---------------------------------------------------------------

  datatype Group = Group(energy: Energy, poses: seq<Pose>)

  /** How far a beat reaches, before its direction; an accent reaches just over half as far. */
  function ReachOf(b: Beat, scale: real): real {
    if b.accent then Reach(b.energy) * scale * 0.55 else Reach(b.energy) * scale
  }

  function Component(part: real, reach: real, span: real): int {
    Round(part * reach * span)
  }

  function BeatTarget(b: Beat, index: nat, scale: real): (p: Pose)
    ensures PoseOk(p)
  {
    var aim, reach := Aim(b.direction), ReachOf(b, scale);
    var side := if index % 2 == 0 then 1.0 else -1.0;
    if aim == Vec(0.0, 0.0) then ClampPose(0.0, Component(side, reach, 6.0) as real)
    else
      var vertical := if aim.y == 0.0 then side * 0.4 else aim.y;
      ClampPose(Component(aim.x, reach, 30.0) as real, Component(vertical, reach, 13.0) as real)
  }

  function BeatPoses(b: Beat, index: nat, drifts: nat, scale: real): (g: Group)
    requires drifts <= 2
    ensures 1 <= |g.poses| <= 1 + drifts && g.energy == b.energy
    ensures forall p :: p in g.poses ==> PoseOk(p)
  {
    var target := BeatTarget(b, index, scale);
    if KindOf(b) == Held then
      var odd := index % 2 == 1;
      var wander :=
        [ ClampPose((target.x + if odd then 2 else -3) as real, (target.y + 2) as real),
          ClampPose((target.x + if odd then -3 else 2) as real, (target.y - 3) as real) ];
      Group(b.energy, [target] + wander[..drifts])
    else
      Group(b.energy, [target])
  }

  function Groups(beats: seq<Beat>, drifts: nat, scale: real): (gs: seq<Group>)
    requires drifts <= 2
    ensures |gs| == |beats|
    ensures forall i :: 0 <= i < |gs| ==> gs[i] == BeatPoses(beats[i], i, drifts, scale)
  {
    seq(|beats|, i requires 0 <= i < |beats| => BeatPoses(beats[i], i, drifts, scale))
  }

  function Poses(groups: seq<Group>): seq<Pose> {
    if groups == [] then [] else Poses(groups[..|groups| - 1]) + groups[|groups| - 1].poses
  }

  /** Out of neutral, through every pose, and back. */
  function Keyframes(groups: seq<Group>): seq<Pose> {
    [NEUTRAL] + Poses(groups) + [NEUTRAL]
  }

  // ---- handles -------------------------------------------------------------

  function MaxR(a: real, b: real): real {
    if a < b then b else a
  }

  function MinR(a: real, b: real): real {
    if b < a then b else a
  }

  function Leg(p: Vec, q: Vec): (v: Vec)
    ensures p.x + v.x == q.x && p.y + v.y == q.y
  {
    Vec(q.x - p.x, q.y - p.y)
  }

  /** Square to `way`, whose length is given, by `reach`. */
  function Aside(way: Vec, length: real, reach: real): Vec
    requires length > 0.0
  {
    Vec(-way.y / length * reach, way.x / length * reach)
  }

  /** The tangent at an inner keyframe: Catmull-Rom between its neighbours, or a sideways loop at a
      cusp. */
  function Turn(hyp: Hypot, before: Vec, point: Vec, after: Vec, odd: bool): Vec {
    var way, smooth := Leg(before, point), Scale(0.5, Leg(before, after));
    var incoming := Length(hyp, way);
    var span := MaxR(incoming, Length(hyp, Leg(point, after)));
    var sideways := 0.55 * span * (if odd then 1.0 else -1.0);
    if Length(hyp, smooth) >= 0.25 * span then smooth
    else if incoming > 0.000001 then Aside(way, incoming, sideways)
    else Vec(sideways, sideways * 0.45)
  }

  /** A tangent is never longer than the shorter neighbouring chord allows. */
  function TurnLimit(hyp: Hypot, before: Vec, point: Vec, after: Vec): (limit: real)
    ensures limit >= 4.0
  {
    MaxR(4.0, MinR(Length(hyp, Leg(before, point)), Length(hyp, Leg(point, after))) * 1.1)
  }

  function CutTo(hyp: Hypot, v: Vec, limit: real): Vec
    requires limit > 0.0
  {
    var length := Length(hyp, v);
    if length > limit then Vec(v.x * limit / length, v.y * limit / length) else v
  }

  /** The tangent at keyframe `i`. */
  function Tangent(hyp: Hypot, kf: seq<Pose>, i: nat): Vec
    requires i < |kf|
  {
    var point := ToVec(kf[i]);
    if |kf| == 1 then Vec(0.0, 0.0)
    else if i == 0 then
      Vec((ToVec(kf[1]).x - point.x) * 0.62, (ToVec(kf[1]).y - point.y) * 0.62)
    else if i + 1 == |kf| then
      Vec((point.x - ToVec(kf[i - 1]).x) * 0.62, (point.y - ToVec(kf[i - 1]).y) * 0.62)
    else
      var before, after := ToVec(kf[i - 1]), ToVec(kf[i + 1]);
      CutTo(hyp, Turn(hyp, before, point, after, i % 2 == 1), TurnLimit(hyp, before, point, after))
  }

  function HandleIn(hyp: Hypot, kf: seq<Pose>, i: nat): Vec
    requires i < |kf|
  {
    var t := Tangent(hyp, kf, i);
    Vec(kf[i].x as real - t.x / 3.0, kf[i].y as real - t.y / 3.0)
  }

  function HandleOut(hyp: Hypot, kf: seq<Pose>, i: nat): Vec
    requires i < |kf|
  {
    var t := Tangent(hyp, kf, i);
    Vec(kf[i].x as real + t.x / 3.0, kf[i].y as real + t.y / 3.0)
  }

  // ---- segments ------------------------------------------------------------

  /** One head movement before its time is known: the path, the shortest time allowed, and the
      rate its peak aims at. */
  datatype Segment = Segment(start: Pose, one: Pose, two: Pose, end: Pose, floor: int, rate: real)

  /** The group a segment arrives in, with its offset there; `None` for the way home. */
  function Owner(index: nat, groups: seq<Group>): Option<(nat, nat)> {
    OwnerFrom(index, groups, 0)
  }

  function OwnerFrom(index: nat, groups: seq<Group>, g: nat): (r: Option<(nat, nat)>)
    requires g <= |groups|
    ensures r.Some? ==> r.value.0 < |groups|
    decreases |groups| - g
  {
    if g == |groups| then None
    else if index < |groups[g].poses| then Some((g, index))
    else OwnerFrom(index - |groups[g].poses|, groups, g + 1)
  }

  predicate IsDrift(index: nat, groups: seq<Group>) {
    Owner(index, groups).Some? && Owner(index, groups).value.1 > 0
  }

  /** How many drift segments, each costing one random draw, come before `index`. */
  function Draws(index: nat, groups: seq<Group>): nat {
    if index == 0 then 0
    else Draws(index - 1, groups) + (if IsDrift(index - 1, groups) then 1 else 0)
  }

  function SegmentRate(index: nat, groups: seq<Group>): (r: real)
    ensures 20.0 <= r <= 88.0
  {
    var owner := Owner(index, groups);
    if owner.None? then 50.0
    else if owner.value.1 > 0 then 50.0 * 0.4
    else TargetRate(groups[owner.value.0].energy)
  }

  function SegmentFloor(env: Env, index: nat, groups: seq<Group>, draw: nat): (ms: int)
    ensures ms >= MIN_HEAD_TRANSITION
  {
    if IsDrift(index, groups) then
      (if (Owner(index, groups).value.1 - 1) % 2 == 0 then 760 else 900) + env.jitter(draw)
    else MIN_HEAD_TRANSITION
  }

  function SegmentAt(env: Env, groups: seq<Group>, index: nat, draw: nat): (s: Segment)
    requires index + 1 < |Keyframes(groups)|
    ensures ControlOk(s.one) && ControlOk(s.two) && s.rate >= 20.0 && s.rate <= 88.0
  {
    var kf := Keyframes(groups);
    var start, end := kf[index], kf[index + 1];
    var one := ClampControl(HandleOut(env.hyp, kf, index));
    var two := ClampControl(HandleIn(env.hyp, kf, index + 1));
    var nudged :=
      if two == end then
        ClampControl(Vec(end.x as real - (end.x - start.x) as real * 0.2 - 2.0, end.y as real - 2.0))
      else two;
    Segment(start, one, nudged, end, SegmentFloor(env, index, groups, draw), SegmentRate(index, groups))
  }

  function PeakSpeed(hyp: Hypot, s: Segment): real {
    PeakPathSpeed(hyp, ToVec(s.start), ToVec(s.one), ToVec(s.two), ToVec(s.end))
  }

  /** The time a segment is given. */
  function Needed(hyp: Hypot, s: Segment): int
    requires s.rate > 0.0
  {
    var solved := Ceil(PeakSpeed(hyp, s) / s.rate * 1000.0);
    if s.floor < solved then solved else s.floor
  }

  function Move(s: Segment, duration: int): HeadTransition {
    HeadTransition(duration, ANYWHERE, ToPoint(s.one), ToPoint(s.two), ToPoint(s.end), LINEAR)
  }

  /** Join whatever posture the head is in. */
  function HeadContinue(duration: int): HeadTransition {
    HeadTransition(duration, ANYWHERE, ANYWHERE, ANYWHERE, ANYWHERE, LINEAR)
  }

  /** Command neutral from neutral. */
  function HeadSettle(duration: int): HeadTransition {
    HeadTransition(duration, ANYWHERE, At(0, 0), At(0, 0), At(0, 0), LINEAR)
  }

  // ---- one head track ------------------------------------------------------

  /** The head transitions, and the group durations every track is cut from. */
  datatype Plan = Plan(head: seq<HeadTransition>, durations: seq<int>)

  function Segments(env: Env, groups: seq<Group>): (ss: seq<Segment>)
    ensures |ss| == |Keyframes(groups)| - 1
    ensures forall i :: 0 <= i < |ss| ==> ss[i] == SegmentAt(env, groups, i, Draws(i, groups))
  {
    seq(|Keyframes(groups)| - 1,
        i requires 0 <= i < |Keyframes(groups)| - 1 => SegmentAt(env, groups, i, Draws(i, groups)))
  }

  function Spans(env: Env, groups: seq<Group>): (ds: seq<int>)
    ensures |ds| == |Keyframes(groups)| - 1
    ensures forall i :: 0 <= i < |ds| ==> ds[i] == Needed(env.hyp, Segments(env, groups)[i])
  {
    seq(|Keyframes(groups)| - 1,
        i requires 0 <= i < |Keyframes(groups)| - 1 => Needed(env.hyp, Segments(env, groups)[i]))
  }

  function Moves(env: Env, groups: seq<Group>): (ts: seq<HeadTransition>)
    ensures |ts| == |Keyframes(groups)| - 1
    ensures forall i :: 0 <= i < |ts| ==>
      ts[i] == Move(Segments(env, groups)[i], Spans(env, groups)[i])
  {
    seq(|Keyframes(groups)| - 1,
        i requires 0 <= i < |Keyframes(groups)| - 1 => Move(Segments(env, groups)[i], Spans(env, groups)[i]))
  }

  /** The time of each of the first `n` groups: the sum of the spans that arrive in it. */
  function GroupTimes(spans: seq<int>, groups: seq<Group>, n: nat): seq<int>
    requires n <= |groups| && |Poses(groups[..n])| <= |spans|
  {
    if n == 0 then []
    else
      assert groups[..n][..n - 1] == groups[..n - 1];
      var from, to := |Poses(groups[..n - 1])|, |Poses(groups[..n])|;
      GroupTimes(spans, groups, n - 1) + [Sum(spans[from..to])]
  }

  function Durations(spans: seq<int>, groups: seq<Group>): seq<int>
    requires |spans| == |Poses(groups)| + 1
  {
    assert groups[..|groups|] == groups;
    [LEAD_IN] + GroupTimes(spans, groups, |groups|) + [Sum(spans[|Poses(groups)|..])]
  }

  /** The head track for these beats, unless some movement would need too long. */
  function HeadTrack(env: Env, beats: seq<Beat>, drifts: nat, scale: real): Option<Plan>
    requires drifts <= 2
  {
    var groups := Groups(beats, drifts, scale);
    var spans := Spans(env, groups);
    if exists i :: 0 <= i < |spans| && spans[i] > MAX_HEAD_TRANSITION then None
    else Some(Plan([HeadContinue(LEAD_IN)] + Moves(env, groups), Durations(spans, groups)))
  }

  method CollectKeyframes(groups: seq<Group>) returns (keyframes: seq<Pose>)
    ensures keyframes == Keyframes(groups)
  {
    keyframes := [NEUTRAL];
    for g := 0 to |groups|
      invariant keyframes == [NEUTRAL] + Poses(groups[..g])
    {
      assert groups[..g + 1][..g] == groups[..g];
      keyframes := keyframes + groups[g].poses;
    }
    assert groups[..|groups|] == groups;
    keyframes := keyframes + [NEUTRAL];
  }

  method TimeSegments(env: Env, groups: seq<Group>)
    returns (fits: bool, transitions: seq<HeadTransition>, spans: seq<int>)
    ensures fits <==> forall i :: 0 <= i < |Spans(env, groups)| ==> Spans(env, groups)[i] <= MAX_HEAD_TRANSITION
    ensures fits ==> spans == Spans(env, groups) && transitions == Moves(env, groups)
  {
    var keyframes := CollectKeyframes(groups);
    transitions, spans := [], [];
    var draw := 0;
    ghost var segments, all, moves := Segments(env, groups), Spans(env, groups), Moves(env, groups);
    hide SegmentAt, Needed, Owner, Move, Keyframes, Segments, Spans, Moves;
    for index := 0 to |keyframes| - 1
      invariant draw == Draws(index, groups)
      invariant |spans| == |transitions| == index
      invariant forall i :: 0 <= i < index ==> spans[i] == all[i] && transitions[i] == moves[i]
      invariant forall i :: 0 <= i < index ==> all[i] <= MAX_HEAD_TRANSITION
    {
      var segment := SegmentAt(env, groups, index, draw);
      if IsDrift(index, groups) {
        draw := draw + 1;
      }
      var duration := Needed(env.hyp, segment);
      assert segment == segments[index] && duration == all[index];
      if duration > MAX_HEAD_TRANSITION {
        return false, [], [];
      }
      transitions := transitions + [Move(segment, duration)];
      spans := spans + [duration];
    }
    assert spans == all && transitions == moves;
    return true, transitions, spans;
  }

  method GroupDurations(spans: seq<int>, groups: seq<Group>) returns (durations: seq<int>)
    requires |spans| == |Poses(groups)| + 1
    ensures durations == Durations(spans, groups)
  {
    durations := [LEAD_IN];
    var cursor := 0;
    PosesPrefix(groups, 0);
    for g := 0 to |groups|
      invariant cursor == |Poses(groups[..g])| <= |Poses(groups)|
      invariant durations == [LEAD_IN] + GroupTimes(spans, groups, g)
    {
      assert groups[..g + 1][..g] == groups[..g];
      PosesPrefix(groups, g + 1);
      durations := durations + [Sum(spans[cursor..cursor + |groups[g].poses|])];
      cursor := cursor + |groups[g].poses|;
    }
    assert groups[..|groups|] == groups;
    durations := durations + [Sum(spans[cursor..])];
  }

  method BuildHead(env: Env, beats: seq<Beat>, drifts: nat, scale: real) returns (r: Option<Plan>)
    requires drifts <= 2
    ensures r == HeadTrack(env, beats, drifts, scale)
  {
    var groups := Groups(beats, drifts, scale);
    var fits, transitions, spans := TimeSegments(env, groups);
    if !fits {
      return None;
    }
    var durations := GroupDurations(spans, groups);
    return Some(Plan([HeadContinue(LEAD_IN)] + transitions, durations));
  }

  lemma {:induction false} PosesPrefix(groups: seq<Group>, n: nat)
    requires n <= |groups|
    ensures |Poses(groups[..n])| <= |Poses(groups)|
    decreases |groups| - n
  {
    if n < |groups| {
      PosesPrefix(groups, n + 1);
      assert groups[..n + 1][..n] == groups[..n];
    } else {
      assert groups[..n] == groups;
    }
  }

  // ---- fitting the budget --------------------------------------------------

  const SCALES: seq<real> := [1.0, 0.8, 0.64, 0.5]

  /** The head track at the first scale, from `i` on, at which no movement is too long. */
  function Shrunk(env: Env, beats: seq<Beat>, drifts: nat, i: nat): Option<Plan>
    requires drifts <= 2 && i <= 4
    decreases 4 - i
  {
    if i == 4 then None
    else if HeadTrack(env, beats, drifts, SCALES[i]).Some? then HeadTrack(env, beats, drifts, SCALES[i])
    else Shrunk(env, beats, drifts, i + 1)
  }

  predicate Fits(p: Option<Plan>, budget: int) {
    p.Some? && Sum(p.value.durations) <= budget
  }

  /** The beats kept and their head track: as many beats as fit, with two drifts in a hold if
      they fit, else one; failing all, a minimal figure. */
  function HeadPlan(env: Env, beats: seq<Beat>, count: nat, budget: int): (seq<Beat>, Plan)
    requires beats != [] && count <= |beats|
  {
    if count == 0 then ([beats[0]], MinimalHead(env.hyp, budget))
    else
      var two, one := Shrunk(env, beats[..count], 2, 0), Shrunk(env, beats[..count], 1, 0);
      if Fits(two, budget) then (beats[..count], two.value)
      else if Fits(one, budget) then (beats[..count], one.value)
      else HeadPlan(env, beats, count - 1, budget)
  }

  method BuildShrunk(env: Env, beats: seq<Beat>, drifts: nat) returns (built: Option<Plan>)
    requires drifts <= 2
    ensures built == Shrunk(env, beats, drifts, 0)
  {
    hide HeadTrack;
    built := None;
    var i := 0;
    while i < 4 && built.None?
      invariant 0 <= i <= 4
      invariant Shrunk(env, beats, drifts, 0) == if built.Some? then built else Shrunk(env, beats, drifts, i)
      decreases 4 - i
    {
      built := BuildHead(env, beats, drifts, SCALES[i]);
      i := i + 1;
    }
  }

  method PlanHead(env: Env, beats: seq<Beat>, budget: int) returns (kept: seq<Beat>, plan: Plan)
    requires beats != []
    ensures (kept, plan) == HeadPlan(env, beats, |beats|, budget)
  {
    hide Shrunk, MinimalHead, Sum;
    var count := |beats|;
    while count > 0
      invariant 0 <= count <= |beats|
      invariant HeadPlan(env, beats, |beats|, budget) == HeadPlan(env, beats, count, budget)
    {
      var built := BuildShrunk(env, beats[..count], 2);
      if Fits(built, budget) {
        return beats[..count], built.value;
      }
      built := BuildShrunk(env, beats[..count], 1);
      if Fits(built, budget) {
        return beats[..count], built.value;
      }
      count := count - 1;
    }
    plan := BuildMinimalHead(env.hyp, budget);
    return [beats[0]], plan;
  }

  // ---- the minimal figure --------------------------------------------------

  function MaxI(a: int, b: int): int {
    if a < b then b else a
  }

  function MinI(a: int, b: int): int {
    if b < a then b else a
  }

  /** The closed loop of the given reach, in whole degrees. */
  function Loop(reach: real): (s: Segment)
    ensures ControlOk(s.one) && ControlOk(s.two) && s.start == NEUTRAL && s.end == NEUTRAL
  {
    Segment(NEUTRAL, ClampControl(Vec(reach, reach * 0.45)), ClampControl(Vec(-reach, reach * 0.45)),
            NEUTRAL, 0, 50.0)
  }

  /** The first reach, stepping down by half a degree, whose loop is slow enough. */
  function FirstLoop(hyp: Hypot, reach: real, limit: real): Option<Segment>
    decreases (reach * 2.0).Floor
  {
    if reach < 0.5 then None
    else if PeakSpeed(hyp, Loop(reach)) <= limit then Some(Loop(reach))
    else FirstLoop(hyp, reach - 0.5, limit)
  }

  function LoopLimit(span: int): real {
    50.0 * (span as real / 1000.0)
  }

  function MinimalHead(hyp: Hypot, budget: int): Plan {
    var ms := MaxI(1, budget);
    var lead := MaxI(1, MinI(LEAD_IN, ms / 4));
    var span := ms - lead;
    if span < 1 then Plan([HeadSettle(ms)], [ms])
    else
      var limit := LoopLimit(span);
      match FirstLoop(hyp, MinR(15.0, limit / 3.0), limit)
      case Some(loop) => Plan([HeadContinue(lead), Move(loop, span)], [lead, span])
      case None => Plan([HeadContinue(lead), HeadSettle(span)], [lead, span])
  }

  method BuildMinimalHead(hyp: Hypot, budget: int) returns (r: Plan)
    ensures r == MinimalHead(hyp, budget)
  {
    hide PeakSpeed, Loop, Move;
    var ms := MaxI(1, budget);
    var lead := MaxI(1, MinI(LEAD_IN, ms / 4));
    if ms - lead < 1 {
      return Plan([HeadSettle(ms)], [ms]);
    }
    var span := ms - lead;
    var limit := LoopLimit(span);
    hide LoopLimit;
    var reach := MinR(15.0, limit / 3.0);
    while reach >= 0.5
      invariant FirstLoop(hyp, MinR(15.0, limit / 3.0), limit) == FirstLoop(hyp, reach, limit)
      decreases (reach * 2.0).Floor
    {
      var loop := Loop(reach);
      if PeakSpeed(hyp, loop) <= limit {
        return Plan([HeadContinue(lead), Move(loop, span)], [lead, span]);
      }
      reach := reach - 0.5;
    }
    return Plan([HeadContinue(lead), HeadSettle(span)], [lead, span]);
  }

  // ---- the antenna ---------------------------------------------------------

  predicate Energetic(beats: seq<Beat>) {
    exists i :: 0 <= i < |beats| && (beats[i].energy == High || beats[i].accent)
  }

  function Shake(b: Beat): Antenna {
    if b.accent then Antenna(Some(0.9), Some(13), None)
    else
      match b.energy
      case Low => Antenna(Some(0.15), Some(3), None)
      case Mid => Antenna(Some(0.4), Some(6), None)
      case High => Antenna(Some(0.8), Some(11), None)
  }

  /** A position rounded to hundredths. */
  function Sway(b: Beat, index: nat): Antenna {
    var aim := Aim(b.direction).y;
    var vertical := if aim != 0.0 then aim else if index % 2 == 0 then 0.5 else -0.5;
    var swing := MaxR(-1.0, MinR(1.0, vertical * Reach(b.energy)));
    Antenna(None, None, Some(Round(swing * 100.0) as real / 100.0))
  }

  /** Energetic specs buzz, calm specs sway; either starts and ends at rest. */
  function AntennaRest(beats: seq<Beat>): Antenna {
    if Energetic(beats) then Antenna(Some(0.0), Some(0), None) else Antenna(None, None, Some(0.0))
  }

  function AntennaFull(beats: seq<Beat>): seq<Antenna> {
    var rest := AntennaRest(beats);
    [rest]
    + seq(|beats|, i requires 0 <= i < |beats| =>
        if Energetic(beats) then Shake(beats[i]) else Sway(beats[i], i))
    + [rest]
  }

  /** One position per group, cut short (but still ending at rest) when groups are few. */
  function AntennaValues(beats: seq<Beat>, groups: nat): seq<Antenna>
    requires groups > 0
  {
    var full := AntennaFull(beats);
    if |full| > groups then full[..groups - 1] + [AntennaRest(beats)] else full
  }

  /** Transition `i` of the antenna: from the position before to its own. */
  function AntennaAt(rest: Antenna, values: seq<Antenna>, i: nat, duration: int): AntennaTransition
    requires i < |values|
  {
    AntennaTransition(duration, if i == 0 then rest else values[i - 1], values[i])
  }

  function AntennaTrack(beats: seq<Beat>, durations: seq<int>): (ts: seq<AntennaTransition>)
    requires durations != []
    ensures |ts| == MinI(|durations|, |AntennaValues(beats, |durations|)|)
    ensures forall i :: 0 <= i < |ts| ==>
      ts[i] == AntennaAt(AntennaRest(beats), AntennaValues(beats, |durations|), i, durations[i])
  {
    var values := AntennaValues(beats, |durations|);
    seq(MinI(|durations|, |values|), i requires 0 <= i < MinI(|durations|, |values|) =>
      AntennaAt(AntennaRest(beats), values, i, durations[i]))
  }

  method RenderAntenna(beats: seq<Beat>, durations: seq<int>) returns (r: seq<AntennaTransition>)
    requires durations != []
    ensures r == AntennaTrack(beats, durations)
  {
    hide AntennaRest, AntennaValues;
    var rest := AntennaRest(beats);
    var values := AntennaValues(beats, |durations|);
    var current := rest;
    r := [];
    while |r| < |durations| && |r| < |values|
      invariant |r| <= |durations| && |r| <= |values|
      invariant current == if |r| == 0 then rest else values[|r| - 1]
      invariant forall i :: 0 <= i < |r| ==> r[i] == AntennaAt(rest, values, i, durations[i])
    {
      var value := values[|r|];
      r := r + [AntennaTransition(durations[|r|], current, value)];
      current := value;
    }
  }

  // ---- the LEDs ------------------------------------------------------------

  function Channels(c: Colour): Option<(int, int, int)> {
    match c
    case Pink => Some((255, 80, 130))
    case Amber => Some((255, 170, 60))
    case Blue => Some((60, 120, 255))
    case Green => Some((70, 220, 140))
    case Violet => Some((170, 90, 255))
    case White => Some((255, 240, 220))
    case Red => Some((255, 70, 70))
    case Off => None
  }

  function Alpha(b: Beat): int {
    if b.accent then 255 else match b.energy case Low => 120 case Mid => 180 case High => 240
  }

  /** The end colour of one LED: dark without a beat, else the beat's colour, dimmed. */
  function LedColour(b: Option<Beat>, shift: int): seq<Option<int>> {
    if b.None? || Channels(b.value.colour).None? then [Some(0), Some(0), Some(0), Some(0)]
    else
      var c := Channels(b.value.colour).value;
      [Some(c.0), Some(c.1), Some(c.2), Some(MaxI(0, MinI(255, Alpha(b.value) + shift)))]
  }

  function BeatOf(beats: seq<Beat>, group: int): Option<Beat> {
    if 1 <= group <= |beats| then Some(beats[group - 1]) else None
  }

  /** The LED transition of track `k` in one group: the right cheek lags the left by a beat,
      and one of the three body lights is lit in turn. */
  function LedAt(beats: seq<Beat>, k: Led, group: nat, duration: int): LedTransition {
    var beat := BeatOf(beats, group);
    var previous := if group <= |beats| then BeatOf(beats, group - 1) else None;
    var ease := if beat.Some? && beat.value.accent then LED_SNAP else LED_FADE;
    var lit := (place: int) => beat.Some? && (group - 1) % 3 == place;
    var dark: Option<Beat> := None;
    var end :=
      match k
      case CheekLeft => LedColour(beat, 0)
      case CheekRight => LedColour(if previous.Some? then previous else beat, -45)
      case Rec => LedColour(if lit(0) then beat else dark, -70)
      case Play => LedColour(if lit(1) then beat else dark, -70)
      case Func => LedColour(if lit(2) then beat else dark, -70);
    LedTransition(duration, [None, None, None, None], end, ease)
  }

  function LedTrack(beats: seq<Beat>, k: Led, durations: seq<int>): (ts: seq<LedTransition>)
    ensures |ts| == |durations|
    ensures forall g :: 0 <= g < |ts| ==> ts[g] == LedAt(beats, k, g, durations[g])
  {
    seq(|durations|, g requires 0 <= g < |durations| => LedAt(beats, k, g, durations[g]))
  }

  method RenderLeds(beats: seq<Beat>, durations: seq<int>) returns (leds: map<Led, seq<LedTransition>>)
    ensures leds.Keys == LEDS
    ensures forall k :: k in LEDS ==> leds[k] == LedTrack(beats, k, durations)
  {
    hide LedAt;
    leds := map k | k in LEDS :: [];
    for group := 0 to |durations|
      invariant leds.Keys == LEDS
      invariant forall k :: k in LEDS ==> |leds[k]| == group
      invariant forall k, g :: k in LEDS && 0 <= g < group ==> leds[k][g] == LedAt(beats, k, g, durations[g])
    {
      var next := map k | k in LEDS :: leds[k] + [LedAt(beats, k, group, durations[group])];
      leds := next;
    }
  }
}
