/**
  A motion document: seven tracks of timed transitions, and the check that the platform's
  motion format is met.

  Numbers are typed, so the checks for booleans, strings and malformed containers disappear.
*/
module MotionDocument {
  import opened Wrappers

  const MAX_HEAD_ANGLE := 45
  const MAX_VERTICAL_ANGLE := 20
  const MAX_CONTROL_ANGLE := 120
  const MAX_TRANSITION_MILLISECONDS := 10000
  const MAX_MOTION_MILLISECONDS := 10000
  const MAX_HEAD_TRANSITIONS := 35
  const MAX_LED_TRANSITIONS := 35
  const MAX_ANTENNA_TRANSITIONS := 15
  const MAX_ANTENNA_FREQUENCY := 20

  /** A pair of angles; `None` keeps the posture the head is in. */
  datatype Point = Point(x: Option<real>, y: Option<real>)

  const ANYWHERE := Point(None, None)

  function At(x: int, y: int): Point {
    Point(Some(x as real), Some(y as real))
  }

  datatype HeadTransition = HeadTransition(
    duration: int, p0: Point, p1: Point, p2: Point, p3: Point, ease: seq<real>)

  datatype Antenna = Antenna(amp: Option<real>, freq: Option<int>, pos: Option<real>)

  datatype AntennaTransition = AntennaTransition(duration: int, start: Antenna, end: Antenna)

  datatype LedTransition = LedTransition(
    duration: int, start: seq<Option<int>>, end: seq<Option<int>>, ease: seq<real>)

  datatype Led = CheekLeft | CheekRight | Play | Rec | Func

  const LEDS: set<Led> := {CheekLeft, CheekRight, Play, Rec, Func}

  datatype Document = Document(
    head: seq<HeadTransition>,
    antenna: seq<AntennaTransition>,
    leds: map<Led, seq<LedTransition>>)

  function Sum(ds: seq<int>): int {
    if ds == [] then 0 else Sum(ds[..|ds| - 1]) + ds[|ds| - 1]
  }

  lemma {:induction false} SumConcat(a: seq<int>, b: seq<int>)
    ensures Sum(a + b) == Sum(a) + Sum(b)
  {
    if b == [] {
      assert a + b == a;
    } else {
      SumConcat(a, b[..|b| - 1]);
      assert (a + b)[..|a + b| - 1] == a + b[..|b| - 1];
    }
  }

  function HeadDurations(head: seq<HeadTransition>): seq<int> {
    seq(|head|, i requires 0 <= i < |head| => head[i].duration)
  }

  function AntennaDurations(antenna: seq<AntennaTransition>): seq<int> {
    seq(|antenna|, i requires 0 <= i < |antenna| => antenna[i].duration)
  }

  function LedDurations(led: seq<LedTransition>): seq<int> {
    seq(|led|, i requires 0 <= i < |led| => led[i].duration)
  }

  // ---- what the format demands ---------------------------------------------

  predicate ValidDuration(d: int) {
    0 <= d <= MAX_TRANSITION_MILLISECONDS
  }

  predicate ValidEase(ease: seq<real>) {
    |ease| == 4 && forall i :: 0 <= i < 4 ==> 0.0 <= ease[i] <= 1.0
  }

  predicate Inside(angle: Option<real>, limit: int) {
    angle.Some? ==> -limit as real <= angle.value <= limit as real
  }

  predicate ValidEndpoint(p: Point) {
    Inside(p.x, MAX_HEAD_ANGLE) && Inside(p.y, MAX_VERTICAL_ANGLE)
  }

  predicate ValidControl(p: Point) {
    Inside(p.x, MAX_CONTROL_ANGLE) && Inside(p.y, MAX_CONTROL_ANGLE)
  }

  predicate ValidHeadTransition(t: HeadTransition) {
    && ValidDuration(t.duration) && ValidEase(t.ease)
    && ValidEndpoint(t.p0) && ValidEndpoint(t.p3) && ValidControl(t.p1) && ValidControl(t.p2)
  }

  predicate ValidAntenna(a: Antenna) {
    && (a.amp.Some? ==> 0.0 <= a.amp.value <= 1.0)
    && (a.freq.Some? ==> 0 <= a.freq.value <= MAX_ANTENNA_FREQUENCY)
    && (a.pos.Some? ==> -1.0 <= a.pos.value <= 1.0)
  }

  predicate ValidAntennaTransition(t: AntennaTransition) {
    && ValidDuration(t.duration) && ValidAntenna(t.start) && ValidAntenna(t.end)
    && (t.start.pos.Some? <==> t.end.pos.Some?)
  }

  predicate ValidChannels(c: seq<Option<int>>) {
    |c| == 4 && forall i :: 0 <= i < 4 ==> (c[i].Some? ==> 0 <= c[i].value <= 255)
  }

  predicate ValidLedTransition(t: LedTransition) {
    ValidDuration(t.duration) && ValidEase(t.ease) && ValidChannels(t.start) && ValidChannels(t.end)
  }

  predicate ValidHead(head: seq<HeadTransition>) {
    && |head| <= MAX_HEAD_TRANSITIONS
    && (forall t :: t in head ==> ValidHeadTransition(t))
    && Sum(HeadDurations(head)) <= MAX_MOTION_MILLISECONDS
  }

  predicate ValidAntennaTrack(antenna: seq<AntennaTransition>) {
    && |antenna| <= MAX_ANTENNA_TRANSITIONS
    && (forall t :: t in antenna ==> ValidAntennaTransition(t))
    && Sum(AntennaDurations(antenna)) <= MAX_MOTION_MILLISECONDS
  }

  predicate ValidLed(led: seq<LedTransition>) {
    && |led| <= MAX_LED_TRANSITIONS
    && (forall t :: t in led ==> ValidLedTransition(t))
    && Sum(LedDurations(led)) <= MAX_MOTION_MILLISECONDS
  }

  predicate ValidDocument(d: Document) {
    && d.leds.Keys == LEDS
    && ValidHead(d.head) && ValidAntennaTrack(d.antenna)
    && forall k :: k in d.leds ==> ValidLed(d.leds[k])
  }

  // ---- the check, track by track -------------------------------------------

  method ValidateHead(head: seq<HeadTransition>) returns (ok: bool)
    ensures ok <==> ValidHead(head)
  {
    if |head| > MAX_HEAD_TRANSITIONS {
      return false;
    }
    var total := 0;
    for i := 0 to |head|
      invariant forall j :: 0 <= j < i ==> ValidHeadTransition(head[j])
      invariant total == Sum(HeadDurations(head)[..i])
    {
      if !ValidHeadTransition(head[i]) {
        return false;
      }
      total := total + head[i].duration;
      assert HeadDurations(head)[..i + 1][..i] == HeadDurations(head)[..i];
    }
    assert HeadDurations(head)[..|head|] == HeadDurations(head);
    return total <= MAX_MOTION_MILLISECONDS;
  }

  method ValidateAntenna(antenna: seq<AntennaTransition>) returns (ok: bool)
    ensures ok <==> ValidAntennaTrack(antenna)
  {
    if |antenna| > MAX_ANTENNA_TRANSITIONS {
      return false;
    }
    var total := 0;
    for i := 0 to |antenna|
      invariant forall j :: 0 <= j < i ==> ValidAntennaTransition(antenna[j])
      invariant total == Sum(AntennaDurations(antenna)[..i])
    {
      if !ValidAntennaTransition(antenna[i]) {
        return false;
      }
      total := total + antenna[i].duration;
      assert AntennaDurations(antenna)[..i + 1][..i] == AntennaDurations(antenna)[..i];
    }
    assert AntennaDurations(antenna)[..|antenna|] == AntennaDurations(antenna);
    return total <= MAX_MOTION_MILLISECONDS;
  }

  method ValidateLed(led: seq<LedTransition>) returns (ok: bool)
    ensures ok <==> ValidLed(led)
  {
    if |led| > MAX_LED_TRANSITIONS {
      return false;
    }
    var total := 0;
    for i := 0 to |led|
      invariant forall j :: 0 <= j < i ==> ValidLedTransition(led[j])
      invariant total == Sum(LedDurations(led)[..i])
    {
      if !ValidLedTransition(led[i]) {
        return false;
      }
      total := total + led[i].duration;
      assert LedDurations(led)[..i + 1][..i] == LedDurations(led)[..i];
    }
    assert LedDurations(led)[..|led|] == LedDurations(led);
    return total <= MAX_MOTION_MILLISECONDS;
  }

  method ValidateMotionDocument(d: Document) returns (ok: bool)
    ensures ok <==> ValidDocument(d)
  {
    if d.leds.Keys != LEDS {
      return false;
    }
    ok := ValidateHead(d.head);
    if !ok {
      return;
    }
    ok := ValidateAntenna(d.antenna);
    var todo := d.leds.Keys;
    while ok && todo != {}
      invariant todo <= d.leds.Keys
      invariant ok ==> ValidAntennaTrack(d.antenna) && forall k :: k in d.leds && k !in todo ==> ValidLed(d.leds[k])
      invariant !ok ==> !ValidDocument(d)
      decreases |todo|
    {
      var k :| k in todo;
      ok := ValidateLed(d.leds[k]);
      todo := todo - {k};
    }
  }

  // ---- the format in numbers -----------------------------------------------

  /** A head transition: up to ten seconds, endpoints within 45 and 20 degrees, handles within 120. */
  lemma HeadFormat(t: HeadTransition)
    ensures ValidHeadTransition(t) <==>
      && 0 <= t.duration <= 10000
      && |t.ease| == 4 && (forall i :: 0 <= i < 4 ==> 0.0 <= t.ease[i] <= 1.0)
      && (forall p :: p in {t.p0, t.p3} ==>
            (p.x.Some? ==> -45.0 <= p.x.value <= 45.0) && (p.y.Some? ==> -20.0 <= p.y.value <= 20.0))
      && (forall p :: p in {t.p1, t.p2} ==>
            (p.x.Some? ==> -120.0 <= p.x.value <= 120.0) && (p.y.Some? ==> -120.0 <= p.y.value <= 120.0))
  {
  }

  /** An antenna transition: amplitude up to 1, frequency up to 20, positions of both ends or neither. */
  lemma AntennaFormat(t: AntennaTransition)
    ensures ValidAntennaTransition(t) <==>
      && 0 <= t.duration <= 10000 && (t.start.pos.Some? <==> t.end.pos.Some?)
      && forall a :: a in {t.start, t.end} ==>
           && (a.amp.Some? ==> 0.0 <= a.amp.value <= 1.0) && (a.freq.Some? ==> 0 <= a.freq.value <= 20)
           && (a.pos.Some? ==> -1.0 <= a.pos.value <= 1.0)
  {
  }

  /** A light transition: four channels of a byte each. */
  lemma LedFormat(t: LedTransition)
    ensures ValidLedTransition(t) <==>
      && 0 <= t.duration <= 10000
      && |t.ease| == 4 && (forall i :: 0 <= i < 4 ==> 0.0 <= t.ease[i] <= 1.0)
      && forall c: seq<Option<int>> :: c in {t.start, t.end} ==>
           |c| == 4 && forall i :: 0 <= i < 4 ==> (c[i].Some? ==> 0 <= c[i].value < 256)
  {
  }

  /** A document: seven tracks of at most 35 transitions, the antenna of 15, none over ten seconds. */
  lemma DocumentFormat(d: Document)
    ensures ValidDocument(d) <==>
      && d.leds.Keys == {CheekLeft, CheekRight, Play, Rec, Func}
      && |d.head| <= 35 && Sum(HeadDurations(d.head)) <= 10000
      && (forall t :: t in d.head ==> ValidHeadTransition(t))
      && |d.antenna| <= 15 && Sum(AntennaDurations(d.antenna)) <= 10000
      && (forall t :: t in d.antenna ==> ValidAntennaTransition(t))
      && forall k :: k in d.leds ==>
           |d.leds[k]| <= 35 && Sum(LedDurations(d.leds[k])) <= 10000 && forall t :: t in d.leds[k] ==> ValidLedTransition(t)
  {
    hide ValidHeadTransition, ValidAntennaTransition, ValidLedTransition;
  }
}
