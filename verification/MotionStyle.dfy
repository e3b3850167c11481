/**
  What the renderer means to express: the head turns where a beat says, accents are the smallest
  moves, a smaller scale never enlarges a pose, left mirrors right, no movement is a straight
  slide, and the lights and the antenna follow the beats and differ the way they are meant to.
*/
module MotionStyle {
  import opened Wrappers
  import opened HeadGeometry
  import opened MotionDocument
  import opened MotionSpec
  import opened MotionRenderer

  function Magnitude(x: int): nat {
    if x < 0 then -x else x
  }

  // ---- rounding ------------------------------------------------------------

  lemma RoundMonotone(x: real, y: real)
    requires x <= y
    ensures Round(x) <= Round(y)
  {
  }

  lemma RoundOdd(x: real)
    ensures Round(-x) == -Round(x)
  {
    var f := x.Floor;
    if x == f as real {
      assert (-x).Floor == -f;
    } else {
      assert (-x).Floor == -f - 1;
    }
  }

  lemma RoundMagnitude(x: real, y: real)
    requires -y <= x <= y
    ensures Magnitude(Round(x)) <= Magnitude(Round(y))
  {
    hide Round;
    RoundMonotone(x, y);
    RoundMonotone(-y, x);
    RoundOdd(y);
  }

  lemma RoundWhole(n: int)
    ensures Round(n as real) == n
  {
  }

  /** Half way between two numbers, the even one. */
  lemma RoundTies(n: int)
    ensures Round(n as real + 0.5) == if n % 2 == 0 then n else n + 1
  {
    assert (n as real + 0.5).Floor == n;
  }

  // ---- poses ---------------------------------------------------------------

  /** A smaller reach gives a component no larger, in the same direction. */
  lemma SmallerComponent(c: real, r1: real, r2: real, k: real)
    requires 0.0 <= r1 <= r2 && k >= 0.0
    ensures Magnitude(Component(c, r1, k)) <= Magnitude(Component(c, r2, k))
  {
    Bounds(c, r1, r2, k);
    Between(c * r1 * k, c * r2 * k);
  }

  lemma Between(a: real, b: real)
    requires 0.0 <= a <= b || b <= a <= 0.0
    ensures Magnitude(Round(a)) <= Magnitude(Round(b))
  {
    hide Round;
    if a >= 0.0 {
      RoundMagnitude(a, if b >= 0.0 then b else 0.0);
    } else {
      RoundMagnitude(a, -b);
      RoundOdd(b);
    }
  }

  lemma ClampMagnitude(a: int, b: int, limit: nat)
    requires Magnitude(a) <= Magnitude(b)
    ensures Magnitude(Clamp(a, limit)) <= Magnitude(Clamp(b, limit))
  {
  }

  /** A clamped pose of whole degrees is no farther out than another that is not. */
  lemma ClampedInside(x1: int, y1: int, x2: int, y2: int)
    requires Magnitude(x1) <= Magnitude(x2) && Magnitude(y1) <= Magnitude(y2)
    ensures var p, q := ClampPose(x1 as real, y1 as real), ClampPose(x2 as real, y2 as real);
      Magnitude(p.x) <= Magnitude(q.x) && Magnitude(p.y) <= Magnitude(q.y)
  {
    RoundWhole(x1);
    RoundWhole(y1);
    RoundWhole(x2);
    RoundWhole(y2);
    hide Round, Clamp, Magnitude;
    ClampMagnitude(x1, x2, MAX_HEAD_ANGLE);
    ClampMagnitude(y1, y2, MAX_VERTICAL_ANGLE);
  }

  lemma Bounds(c: real, r1: real, r2: real, k: real)
    requires 0.0 <= r1 <= r2 && k >= 0.0
    ensures c >= 0.0 ==> 0.0 <= c * r1 * k <= c * r2 * k
    ensures c < 0.0 ==> c * r2 * k <= c * r1 * k <= 0.0
  {
    ProductMonotone(r1, r2, k, k);
    var x, y := r1 * k, r2 * k;
    ProductMonotone(0.0, r1, 0.0, k);
    if c >= 0.0 {
      ProductMonotone(c, c, x, y);
      ProductMonotone(0.0, c, 0.0, x);
    } else {
      ProductMonotone(-c, -c, x, y);
      ProductMonotone(0.0, -c, 0.0, x);
    }
    assert c * r1 * k == c * x && c * r2 * k == c * y;
  }

  /** A shorter reach in the same direction gives a pose no farther out, on either axis. */
  lemma ShorterReach(b: Beat, c: Beat, index: nat, s: real, t: real)
    requires b.direction == c.direction && 0.0 <= ReachOf(b, s) <= ReachOf(c, t)
    ensures var p, q := BeatTarget(b, index, s), BeatTarget(c, index, t);
      Magnitude(p.x) <= Magnitude(q.x) && Magnitude(p.y) <= Magnitude(q.y)
  {
    var aim := Aim(b.direction);
    hide Component, ClampPose, Magnitude, Aim, ReachOf;
    var near, far := ReachOf(b, s), ReachOf(c, t);
    var side := if index % 2 == 0 then 1.0 else -1.0;
    var vertical := if aim.y == 0.0 then side * 0.4 else aim.y;
    SmallerComponent(side, near, far, 6.0);
    SmallerComponent(aim.x, near, far, 30.0);
    SmallerComponent(vertical, near, far, 13.0);
    NothingIsLeast();
    ClampedInside(0, Component(side, near, 6.0), 0, Component(side, far, 6.0));
    ClampedInside(Component(aim.x, near, 30.0), Component(vertical, near, 13.0),
                  Component(aim.x, far, 30.0), Component(vertical, far, 13.0));
  }

  lemma NothingIsLeast()
    ensures Magnitude(0) <= Magnitude(0) && 0 as real == 0.0
  {
  }

  /** An accent is never a larger move than the same beat without it. */
  lemma AccentIsSmaller(b: Beat, index: nat, scale: real)
    requires scale >= 0.0
    ensures var p, q := BeatTarget(b.(accent := true), index, scale), BeatTarget(b.(accent := false), index, scale);
      Magnitude(p.x) <= Magnitude(q.x) && Magnitude(p.y) <= Magnitude(q.y)
  {
    hide BeatTarget;
    assert Reach(b.energy) * scale >= 0.0;
    ShorterReach(b.(accent := true), b.(accent := false), index, scale, scale);
  }

  /** Shrinking a figure never moves a pose outwards. */
  lemma ScaleShrinks(b: Beat, index: nat, s: real, t: real)
    requires 0.0 <= s <= t
    ensures var p, q := BeatTarget(b, index, s), BeatTarget(b, index, t);
      Magnitude(p.x) <= Magnitude(q.x) && Magnitude(p.y) <= Magnitude(q.y)
  {
    hide BeatTarget;
    assert Reach(b.energy) * s >= 0.0 && Reach(b.energy) * s <= Reach(b.energy) * t;
    ShorterReach(b, b, index, s, t);
  }

  /** Looking to the right at full scale, in even places: the farther the more energy, an accent just
      over half as far. */
  lemma LookingRight(b: Beat, index: nat)
    requires b.direction == Right && index % 2 == 0
    ensures BeatTarget(b, index, 1.0) ==
      match b.energy
      case Low => if b.accent then Pose(7, 1) else Pose(12, 2)
      case Mid => if b.accent then Pose(12, 2) else Pose(21, 4)
      case High => if b.accent then Pose(16, 3) else Pose(30, 5)
  {
  }

  function Mirrored(d: Direction): Direction {
    match d
    case Left => Right case Right => Left
    case UpLeft => UpRight case UpRight => UpLeft
    case DownLeft => DownRight case DownRight => DownLeft
    case _ => d
  }

  /** Left and right are mirror images. */
  lemma LeftMirrorsRight(b: Beat, index: nat, scale: real)
    ensures var p, q := BeatTarget(b, index, scale), BeatTarget(b.(direction := Mirrored(b.direction)), index, scale);
      q == Pose(-p.x, p.y)
  {
    hide Component, ClampPose, Aim, ReachOf, Mirrored;
    MirroredAim(b, scale);
    var aim, reach := Aim(b.direction), ReachOf(b, scale);
    var side := if index % 2 == 0 then 1.0 else -1.0;
    var vertical := if aim.y == 0.0 then side * 0.4 else aim.y;
    ComponentOdd(aim.x, reach, 30.0);
    MirroredPose(0, Component(side, reach, 6.0));
    MirroredPose(Component(aim.x, reach, 30.0), Component(vertical, reach, 13.0));
  }

  lemma MirroredAim(b: Beat, scale: real)
    ensures Aim(Mirrored(b.direction)) == Vec(-Aim(b.direction).x, Aim(b.direction).y)
    ensures ReachOf(b.(direction := Mirrored(b.direction)), scale) == ReachOf(b, scale)
  {
  }

  lemma ComponentOdd(part: real, reach: real, span: real)
    ensures Component(-part, reach, span) == -Component(part, reach, span)
  {
    RoundOdd(part * reach * span);
    hide Round;
    assert -part * reach * span == -(part * reach * span);
  }

  lemma MirroredPose(x: int, y: int)
    ensures ClampPose(-x as real, y as real) == Pose(-ClampPose(x as real, y as real).x, ClampPose(x as real, y as real).y)
  {
    RoundWhole(x);
    RoundWhole(-x);
  }

  // ---- what a beat says ----------------------------------------------------

  predicate LooksLeft(d: Direction) {
    d in {Left, UpLeft, DownLeft}
  }

  predicate LooksRight(d: Direction) {
    d in {Right, UpRight, DownRight}
  }

  predicate LooksUp(d: Direction) {
    d in {Up, UpLeft, UpRight}
  }

  predicate LooksDown(d: Direction) {
    d in {Down, DownLeft, DownRight}
  }

  /** At every scale that is used the head turns to the side the direction names, and up or down as
      it says; where it says neither, up and down take turns. */
  lemma PoseFollowsDirection(b: Beat, index: nat, scale: real)
    requires 0.5 <= scale <= 1.0
    ensures var p := BeatTarget(b, index, scale);
      && (p.x < 0 <==> LooksLeft(b.direction)) && (p.x > 0 <==> LooksRight(b.direction))
      && (p.y > 0 <==> LooksUp(b.direction) || (!LooksDown(b.direction) && index % 2 == 0))
      && (p.y < 0 <==> LooksDown(b.direction) || (!LooksUp(b.direction) && index % 2 == 1))
  {
    hide ReachOf, Aim, LooksLeft, LooksRight, LooksUp, LooksDown, Component, ClampPose;
    var aim, reach := Aim(b.direction), ReachOf(b, scale);
    AimSign(b.direction);
    ReachIsSome(b, scale);
    var side := if index % 2 == 0 then 1.0 else -1.0;
    var vertical := if aim.y == 0.0 then side * 0.4 else aim.y;
    if aim == Vec(0.0, 0.0) {
      SignOfPose(0.0, side, reach, 30.0, 6.0);
      NoComponent(reach, 30.0);
    } else {
      SignOfPose(aim.x, vertical, reach, 30.0, 13.0);
    }
  }

  lemma NoComponent(reach: real, span: real)
    ensures Component(0.0, reach, span) == 0
  {
  }

  lemma SignOfPose(x: real, y: real, reach: real, wide: real, high: real)
    requires 0.11 <= reach <= 1.0 && wide == 30.0 && 6.0 <= high
    requires (x == 0.0 || x >= 0.5 || x <= -0.5) && (y * high >= 5.0 || y * high <= -5.0)
    ensures var p := ClampPose(Component(x, reach, wide) as real, Component(y, reach, high) as real);
      && (p.x > 0 <==> x > 0.0) && (p.x < 0 <==> x < 0.0) && (p.y > 0 <==> y > 0.0) && (p.y < 0 <==> y < 0.0)
  {
    hide Component, ClampPose;
    ComponentSign(x, reach, wide);
    ComponentSign(y, reach, high);
    ClampSign(Component(x, reach, wide), Component(y, reach, high));
    SameSign(y, high);
  }

  lemma SameSign(y: real, k: real)
    requires k > 0.0
    ensures (y * k > 0.0 <==> y > 0.0) && (y * k < 0.0 <==> y < 0.0)
  {
  }

  lemma AimSign(d: Direction)
    ensures var a := Aim(d);
      && (LooksLeft(d) ==> a.x <= -0.5) && (LooksRight(d) ==> a.x >= 0.5)
      && (!LooksLeft(d) && !LooksRight(d) ==> a.x == 0.0)
      && (LooksUp(d) ==> a.y >= 0.5) && (LooksDown(d) ==> a.y <= -0.5)
      && (!LooksUp(d) && !LooksDown(d) ==> a.y == 0.0)
      && !(LooksLeft(d) && LooksRight(d)) && !(LooksUp(d) && LooksDown(d))
  {
  }

  lemma ReachIsSome(b: Beat, scale: real)
    requires 0.5 <= scale <= 1.0
    ensures 0.11 <= ReachOf(b, scale) <= 1.0
  {
  }

  lemma ComponentSign(part: real, reach: real, span: real)
    requires 0.11 <= reach <= 1.0 && (part == 0.0 || part * span >= 5.0 || part * span <= -5.0)
    ensures Component(part, reach, span) > 0 <==> part * span > 0.0
    ensures Component(part, reach, span) < 0 <==> part * span < 0.0
  {
    var x := part * span;
    assert part * reach * span == x * reach;
    if x >= 5.0 {
      ProductMonotone(5.0, x, 0.11, reach);
    } else if x <= -5.0 {
      ProductMonotone(5.0, -x, 0.11, reach);
      assert (-x) * reach == -(x * reach);
    }
  }

  lemma ClampSign(x: int, y: int)
    ensures var p := ClampPose(x as real, y as real);
      && (p.x > 0 <==> x > 0) && (p.x < 0 <==> x < 0) && (p.y > 0 <==> y > 0) && (p.y < 0 <==> y < 0)
  {
    RoundWhole(x);
    RoundWhole(y);
  }

  function Rank(e: Energy): nat {
    match e case Low => 0 case Mid => 1 case High => 2
  }

  /** More energy never means a smaller pose, and always a faster movement and a brighter light. */
  lemma EnergyGrows(b: Beat, e: Energy, index: nat, scale: real)
    requires Rank(b.energy) < Rank(e) && scale >= 0.0
    ensures var p, q := BeatTarget(b, index, scale), BeatTarget(b.(energy := e), index, scale);
      Magnitude(p.x) <= Magnitude(q.x) && Magnitude(p.y) <= Magnitude(q.y)
    ensures TargetRate(b.energy) < TargetRate(e)
    ensures !b.accent ==> Alpha(b) < Alpha(b.(energy := e)) < Alpha(b.(accent := true))
  {
    hide BeatTarget;
    assert Reach(b.energy) * scale >= 0.0 && Reach(b.energy) * scale <= Reach(e) * scale;
    ShorterReach(b, b.(energy := e), index, scale, scale);
  }

  /** Only a held beat drifts: from its pose to one side and up, and then to the other side and down,
      beginning on the left and on the right in turns. */
  lemma OnlyHoldsDrift(b: Beat, index: nat, drifts: nat, scale: real)
    requires drifts <= 2 && 0.0 <= scale <= 1.0
    ensures var poses, p := BeatPoses(b, index, drifts, scale).poses, BeatTarget(b, index, scale);
      && poses[0] == p
      && |poses| == (if b.hold && !b.accent then 1 + drifts else 1)
      && (|poses| > 1 ==> poses[1] == if index % 2 == 0 then Pose(p.x - 3, p.y + 2) else Pose(p.x + 2, p.y + 2))
      && (|poses| > 2 ==> poses[2] == if index % 2 == 0 then Pose(p.x + 2, p.y - 3) else Pose(p.x - 3, p.y - 3))
  {
    var target := BeatTarget(b, index, scale);
    TargetInside(b, index, scale);
    RoundWhole(target.x + 2);
    RoundWhole(target.x - 3);
    RoundWhole(target.y + 2);
    RoundWhole(target.y - 3);
    hide BeatTarget, Round;
  }

  lemma TargetInside(b: Beat, index: nat, scale: real)
    requires 0.0 <= scale <= 1.0
    ensures var p := BeatTarget(b, index, scale); -30 <= p.x <= 30 && -13 <= p.y <= 13
  {
    var aim, reach := Aim(b.direction), ReachOf(b, scale);
    assert 0.0 <= reach <= 1.0;
    var side := if index % 2 == 0 then 1.0 else -1.0;
    var vertical := if aim.y == 0.0 then side * 0.4 else aim.y;
    hide ReachOf;
    ComponentInside(side, reach, 6, 6.0);
    ComponentInside(aim.x, reach, 30, 30.0);
    ComponentInside(vertical, reach, 13, 13.0);
    hide Component, Aim;
    ClampInside(0, Component(side, reach, 6.0));
    ClampInside(Component(aim.x, reach, 30.0), Component(vertical, reach, 13.0));
  }

  lemma ComponentInside(part: real, reach: real, span: int, k: real)
    requires -1.0 <= part <= 1.0 && 0.0 <= reach <= 1.0 && span >= 0 && k == span as real
    ensures -span <= Component(part, reach, k) <= span
  {
    hide Round, Component;
    var v := PartOf(part, reach, k);
    RoundInside(v, span, k);
  }

  /** The component before it is rounded. */
  lemma PartOf(part: real, reach: real, k: real) returns (v: real)
    requires -1.0 <= part <= 1.0 && 0.0 <= reach <= 1.0 && k >= 0.0
    ensures Component(part, reach, k) == Round(v) && -k <= v <= k
  {
    hide Round;
    v := part * reach * k;
    Bounds(part, reach, 1.0, k);
    WholePart(part, k);
    if part >= 0.0 {
      assert 0.0 <= part * reach * k <= part * 1.0 * k;
    } else {
      assert part * 1.0 * k <= part * reach * k <= 0.0;
    }
  }

  lemma WholePart(part: real, k: real)
    requires -1.0 <= part <= 1.0 && k >= 0.0
    ensures -k <= part * 1.0 * k <= k
  {
    if part >= 0.0 {
      ProductMonotone(part, 1.0, k, k);
    } else {
      ProductMonotone(-part, 1.0, k, k);
    }
  }

  lemma RoundInside(v: real, span: int, k: real)
    requires k == span as real && -k <= v <= k
    ensures -span <= Round(v) <= span
  {
    RoundWhole(span);
    RoundOdd(k);
    hide Round;
    RoundMonotone(v, k);
    RoundMonotone(-k, v);
  }

  lemma ClampInside(x: int, y: int)
    requires -30 <= x <= 30 && -13 <= y <= 13
    ensures ClampPose(x as real, y as real) == Pose(x, y)
  {
    RoundWhole(x);
    RoundWhole(y);
  }

  // ---- movements -----------------------------------------------------------

  /** No movement arrives in a straight slide: its second handle is not its end. */
  lemma NeverASlide(env: Env, groups: seq<Group>, index: nat, draw: nat)
    requires index + 1 < |Keyframes(groups)| && PoseOk(Keyframes(groups)[index + 1])
    ensures var s := SegmentAt(env, groups, index, draw); s.two != s.end
  {
    hide HandleIn, HandleOut, SegmentFloor, SegmentRate, Keyframes, Round;
    var end := Keyframes(groups)[index + 1];
    RoundWhole(end.y - 2);
    assert end.y as real - 2.0 == (end.y - 2) as real;
  }

  // ---- lights --------------------------------------------------------------

  const DARK: seq<Option<int>> := [Some(0), Some(0), Some(0), Some(0)]

  predicate Lit(t: LedTransition) {
    t.end != DARK
  }

  predicate HasColour(b: Option<Beat>) {
    b.Some? && Channels(b.value.colour).Some?
  }

  lemma LedColourLit(b: Option<Beat>, shift: int)
    requires -70 <= shift <= 0
    ensures LedColour(b, shift) != DARK <==> HasColour(b)
    ensures HasColour(b) ==> LedColour(b, shift)[3] == Some(Alpha(b.value) + shift)
  {
    if HasColour(b) {
      assert LedColour(b, shift)[0] != Some(0);
    }
  }

  /** In the time of a beat that has a colour exactly one of the three body lights is lit, a
      different one each beat; otherwise none is. */
  lemma OneBodyLight(beats: seq<Beat>, group: nat, duration: int)
    ensures var lit := set k: Led | k in {Rec, Play, Func} && Lit(LedAt(beats, k, group, duration));
      if HasColour(BeatOf(beats, group))
      then lit == {if (group - 1) % 3 == 0 then Rec else if (group - 1) % 3 == 1 then Play else Func}
      else lit == {}
  {
    LedColourLit(BeatOf(beats, group), -70);
    LedColourLit(None, -70);
    hide LedColour, BeatOf, HasColour;
  }

  /** The two cheeks never show the same light: they agree only when both are dark. */
  lemma CheeksDiffer(beats: seq<Beat>, group: nat, duration: int)
    ensures var l, r := LedAt(beats, CheekLeft, group, duration), LedAt(beats, CheekRight, group, duration);
      l.end == r.end ==> !Lit(l) && !Lit(r)
  {
    var beat := BeatOf(beats, group);
    var previous := if group <= |beats| then BeatOf(beats, group - 1) else None;
    var other := if previous.Some? then previous else beat;
    LedColourLit(beat, 0);
    LedColourLit(other, -45);
    hide LedColour, BeatOf;
  }

  /** The left cheek shows the colour of the beat, the right one that of the beat before, or of the
      first beat; before and after the beats the left cheek is dark. */
  lemma CheeksShowTheBeats(beats: seq<Beat>, group: nat, duration: int)
    ensures var l, r := LedAt(beats, CheekLeft, group, duration).end, LedAt(beats, CheekRight, group, duration).end;
      && (1 <= group <= |beats| ==> Shows(l, beats[group - 1]) && Shows(r, beats[if group == 1 then 0 else group - 2]))
      && (!(1 <= group <= |beats|) ==> l == DARK && r == DARK)
  {
  }

  /** This light has the beat's colour. */
  predicate Shows(light: seq<Option<int>>, b: Beat) {
    && |light| == 4
    && match b.colour
       case Off => light == DARK
       case Pink => Rgb(light) == Some((255, 80, 130))
       case Amber => Rgb(light) == Some((255, 170, 60))
       case Blue => Rgb(light) == Some((60, 120, 255))
       case Green => Rgb(light) == Some((70, 220, 140))
       case Violet => Rgb(light) == Some((170, 90, 255))
       case White => Rgb(light) == Some((255, 240, 220))
       case Red => Rgb(light) == Some((255, 70, 70))
  }

  function Rgb(light: seq<Option<int>>): Option<(int, int, int)>
    requires |light| == 4
  {
    if light[0].Some? && light[1].Some? && light[2].Some? then Some((light[0].value, light[1].value, light[2].value))
    else None
  }

  /** How bright: the left cheek by the energy of its beat, an accent fully; the right cheek 45 and
      the body light that is lit 70 darker. */
  lemma Brightness(beats: seq<Beat>, i: nat, duration: int)
    requires i < |beats| && HasColour(Some(beats[i]))
    ensures var alpha := if beats[i].accent then 255
                         else match beats[i].energy case Low => 120 case Mid => 180 case High => 240;
      var body := if i % 3 == 0 then Rec else if i % 3 == 1 then Play else Func;
      && |LedAt(beats, CheekLeft, i + 1, duration).end| == 4 && |LedAt(beats, body, i + 1, duration).end| == 4
      && LedAt(beats, CheekLeft, i + 1, duration).end[3] == Some(alpha)
      && LedAt(beats, body, i + 1, duration).end[3] == Some(alpha - 70)
      && (i + 2 <= |beats| ==>
            var lag := LedAt(beats, CheekRight, i + 2, duration).end; |lag| == 4 && lag[3] == Some(alpha - 45))
  {
    LedColourLit(Some(beats[i]), 0);
    LedColourLit(Some(beats[i]), -45);
    LedColourLit(Some(beats[i]), -70);
    hide LedColour;
  }

  /** An accent snaps to its colour; any other beat, and the time around the beats, fades. */
  lemma EaseFollowsAccent(beats: seq<Beat>, k: Led, group: nat, duration: int)
    ensures LedAt(beats, k, group, duration).ease ==
      if 1 <= group <= |beats| && beats[group - 1].accent then [0.9, 0.0, 1.0, 1.0] else [0.3, 0.0, 0.7, 1.0]
  {
    hide LedColour;
  }

  // ---- the antenna ---------------------------------------------------------

  /** It shakes exactly when some beat is energetic or accented, the harder the more energy a beat
      has, an accent hardest; otherwise it sways up or down with the beats. */
  lemma AntennaFollowsBeats(beats: seq<Beat>, i: nat)
    requires i < |beats|
    ensures var a := AntennaFull(beats)[i + 1];
      && (a.pos.None? <==> exists j :: 0 <= j < |beats| && (beats[j].energy == High || beats[j].accent))
      && (a.pos.Some? ==>
            && (LooksUp(beats[i].direction) ==> a.pos.value > 0.0)
            && (LooksDown(beats[i].direction) ==> a.pos.value < 0.0))
  {
    var b := beats[i];
    var aim := Aim(b.direction).y;
    var vertical := if aim != 0.0 then aim else if i % 2 == 0 then 0.5 else -0.5;
    assert AntennaFull(beats)[i + 1] == if Energetic(beats) then Shake(b) else Sway(b, i);
  }

  lemma ShakesHarder(b: Beat, e: Energy)
    requires Rank(b.energy) < Rank(e) && !b.accent
    ensures var p, q, r := Shake(b), Shake(b.(energy := e)), Shake(b.(accent := true));
      && p.amp.value < q.amp.value < r.amp.value && p.freq.value < q.freq.value < r.freq.value
  {
  }

  /** The shaking of each beat, */
  lemma ShakeIs(b: Beat)
    ensures Shake(b) ==
      if b.accent then Antenna(Some(0.9), Some(13), None)
      else if b.energy == High then Antenna(Some(0.8), Some(11), None)
      else if b.energy == Mid then Antenna(Some(0.4), Some(6), None)
      else Antenna(Some(0.15), Some(3), None)
  {
  }

  /** and the swaying of a calm one: up or down as far as it looks, or by half as far in turns. */
  lemma SwayIs(b: Beat, index: nat)
    requires b.energy != High
    ensures var far := if b.energy == Low then 0.4 else 0.7;
      var p := Sway(b, index).pos;
      && Sway(b, index) == Antenna(None, None, p) && p.Some?
      && p.value ==
           if b.direction == Up then far else if b.direction == Down then -far
           else if LooksUp(b.direction) then far * 0.8 else if LooksDown(b.direction) then -far * 0.8
           else if index % 2 == 0 then far * 0.5 else -far * 0.5
  {
    RoundWhole(40);
    RoundWhole(-40);
    RoundWhole(70);
    RoundWhole(-70);
    RoundWhole(32);
    RoundWhole(-32);
    RoundWhole(56);
    RoundWhole(-56);
    RoundWhole(20);
    RoundWhole(-20);
    RoundWhole(35);
    RoundWhole(-35);
    hide Round;
  }

  /** It starts and ends still. */
  lemma AntennaEndsStill(beats: seq<Beat>)
    ensures var full, rest := AntennaFull(beats), AntennaRest(beats);
      && full[0] == rest == full[|beats| + 1]
      && (rest == Antenna(Some(0.0), Some(0), None) || rest == Antenna(None, None, Some(0.0)))
  {
  }
}
