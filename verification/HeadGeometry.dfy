/**
  The geometry of one head movement: a cubic Bezier path, its speed, and what 129 samples of
  that speed say about every point between them.

  Floating point is replaced by exact reals.  `math.hypot` is a parameter, `hyp`, so that no
  square root has to be defined; results that depend on its value require `IsHypot(hyp)`.
*/
module HeadGeometry {
  datatype Vec = Vec(x: real, y: real)

  type Hypot = (real, real) -> real

  /** The parameter really is the Euclidean length. */
  ghost predicate IsHypot(hyp: Hypot) {
    forall x, y :: hyp(x, y) >= 0.0 && hyp(x, y) * hyp(x, y) == x * x + y * y
  }

  function Add(u: Vec, v: Vec): Vec {
    Vec(u.x + v.x, u.y + v.y)
  }

  function Scale(c: real, v: Vec): Vec {
    Vec(c * v.x, c * v.y)
  }

  function Length(hyp: Hypot, v: Vec): real {
    hyp(v.x, v.y)
  }

  function Sample(i: nat): real {
    i as real / 128.0
  }

  /** 129 points from 0 to 1, both included. */
  function Samples(): (ts: seq<real>)
    ensures |ts| == 129 && forall i :: 0 <= i < 129 ==> ts[i] == Sample(i)
  {
    seq(129, (i: nat) => Sample(i))
  }

  // ---- the path ------------------------------------------------------------

  function Cubic1(p0: real, p1: real, p2: real, p3: real, t: real): real {
    var rest := 1.0 - t;
    rest * rest * rest * p0 + 3.0 * rest * rest * t * p1 + 3.0 * rest * t * t * p2 + t * t * t * p3
  }

  function Slope1(p0: real, p1: real, p2: real, p3: real, t: real): real {
    var rest := 1.0 - t;
    3.0 * rest * rest * (p1 - p0) + 6.0 * rest * t * (p2 - p1) + 3.0 * t * t * (p3 - p2)
  }

  function Cubic(p0: Vec, p1: Vec, p2: Vec, p3: Vec, t: real): Vec {
    Vec(Cubic1(p0.x, p1.x, p2.x, p3.x, t), Cubic1(p0.y, p1.y, p2.y, p3.y, t))
  }

  function CubicDerivative(p0: Vec, p1: Vec, p2: Vec, p3: Vec, t: real): Vec {
    Vec(Slope1(p0.x, p1.x, p2.x, p3.x, t), Slope1(p0.y, p1.y, p2.y, p3.y, t))
  }

  function Speed(hyp: Hypot, p0: Vec, p1: Vec, p2: Vec, p3: Vec, t: real): real {
    Length(hyp, CubicDerivative(p0, p1, p2, p3, t))
  }

  /** The largest speed sampled at these points. */
  function PeakOf(hyp: Hypot, p0: Vec, p1: Vec, p2: Vec, p3: Vec, ts: seq<real>): real
    requires ts != []
  {
    var last := Speed(hyp, p0, p1, p2, p3, ts[|ts| - 1]);
    if |ts| == 1 then last
    else
      var before := PeakOf(hyp, p0, p1, p2, p3, ts[..|ts| - 1]);
      if before < last then last else before
  }

  /** It is the largest of the speeds there. */
  lemma {:induction false} PeakIsLargest(hyp: Hypot, p0: Vec, p1: Vec, p2: Vec, p3: Vec, ts: seq<real>)
    requires ts != []
    ensures var m := PeakOf(hyp, p0, p1, p2, p3, ts);
      && (forall i :: 0 <= i < |ts| ==> Speed(hyp, p0, p1, p2, p3, ts[i]) <= m)
      && exists i :: 0 <= i < |ts| && Speed(hyp, p0, p1, p2, p3, ts[i]) == m
  {
    hide Speed;
    var front, last := ts[..|ts| - 1], |ts| - 1;
    if |ts| == 1 {
      assert Speed(hyp, p0, p1, p2, p3, ts[0]) == PeakOf(hyp, p0, p1, p2, p3, ts);
    } else {
      PeakIsLargest(hyp, p0, p1, p2, p3, front);
      var i :| 0 <= i < |front| && Speed(hyp, p0, p1, p2, p3, front[i]) == PeakOf(hyp, p0, p1, p2, p3, front);
      assert forall j :: 0 <= j < |front| ==> front[j] == ts[j];
      assert Speed(hyp, p0, p1, p2, p3, ts[i]) == PeakOf(hyp, p0, p1, p2, p3, front);
      assert Speed(hyp, p0, p1, p2, p3, ts[last]) == Speed(hyp, p0, p1, p2, p3, ts[|ts| - 1]);
    }
  }

  function PeakPathSpeed(hyp: Hypot, p0: Vec, p1: Vec, p2: Vec, p3: Vec): real {
    PeakOf(hyp, p0, p1, p2, p3, Samples())
  }

  // ---- lengths without square roots ----------------------------------------

  /** `v` is no longer than `r`. */
  predicate Within(v: Vec, r: real) {
    r >= 0.0 && v.x * v.x + v.y * v.y <= r * r
  }

  lemma Cauchy(u: Vec, v: Vec, a: real, b: real)
    requires Within(u, a) && Within(v, b)
    ensures u.x * v.x + u.y * v.y <= a * b
  {
    var dot, cross := u.x * v.x + u.y * v.y, u.x * v.y - u.y * v.x;
    var uu, vv := u.x * u.x + u.y * u.y, v.x * v.x + v.y * v.y;
    assert dot * dot + cross * cross == uu * vv;
    assert cross * cross >= 0.0;
    ProductMonotone(uu, a * a, vv, b * b);
    assert (a * a) * (b * b) == (a * b) * (a * b);
    assert a * b >= 0.0;
    if dot > a * b {
      ProductStrict(a * b, dot);
      assert false;
    }
  }

  lemma ProductMonotone(x: real, y: real, u: real, v: real)
    requires 0.0 <= x <= y && 0.0 <= u <= v
    ensures x * u <= y * v
  {
    assert (y - x) * u >= 0.0;
    assert y * (v - u) >= 0.0;
  }

  lemma ProductStrict(x: real, y: real)
    requires 0.0 <= x < y
    ensures x * x < y * y
  {
    var d := y - x;
    assert d * y > 0.0 && d * x >= 0.0;
  }

  /** The triangle inequality. */
  lemma WithinAdd(u: Vec, v: Vec, a: real, b: real)
    requires Within(u, a) && Within(v, b)
    ensures Within(Add(u, v), a + b)
  {
    Cauchy(u, v, a, b);
    var w := Add(u, v);
    assert w.x * w.x + w.y * w.y
        == (u.x * u.x + u.y * u.y) + (v.x * v.x + v.y * v.y) + 2.0 * (u.x * v.x + u.y * v.y);
    assert (a + b) * (a + b) == a * a + b * b + 2.0 * (a * b);
  }

  lemma WithinScale(v: Vec, r: real, c: real, d: real)
    requires Within(v, r) && -d <= c <= d
    ensures Within(Scale(c, v), d * r)
  {
    assert d >= 0.0;
    var n := v.x * v.x + v.y * v.y;
    assert (c * v.x) * (c * v.x) + (c * v.y) * (c * v.y) == (c * c) * n;
    assert (d - c) * (d + c) >= 0.0;
    assert 0.0 <= c * c <= d * d;
    ProductMonotone(c * c, d * d, n, r * r);
    assert (d * d) * (r * r) == (d * r) * (d * r);
    assert d * r >= 0.0;
  }

  lemma WithinLength(hyp: Hypot, v: Vec, r: real)
    requires IsHypot(hyp)
    ensures Within(v, r) <==> Length(hyp, v) <= r
  {
    var n := Length(hyp, v);
    assert n >= 0.0 && n * n == v.x * v.x + v.y * v.y;
    if r >= 0.0 {
      if n <= r {
        ProductMonotone(n, r, n, r);
      } else {
        ProductStrict(r, n);
      }
    }
  }

  // ---- between two samples -------------------------------------------------

  function Quadratic(a: real, b: real, c: real, t: real): real {
    a + b * t + c * t * t
  }

  function Bow(s: real): real {
    s * (1.0 - s) / 8192.0
  }

  /** A quadratic is its linear interpolation on a sample interval, less a bow whose height its
      values at 0, 1/2 and 1 fix. */
  lemma Interpolate(a: real, b: real, c: real, lo: real, s: real)
    ensures
      var h := 1.0 / 128.0;
      Quadratic(a, b, c, lo + s * h)
      == (1.0 - s) * Quadratic(a, b, c, lo) + s * Quadratic(a, b, c, lo + h)
         - Bow(s) * (Quadratic(a, b, c, 0.0) - 2.0 * Quadratic(a, b, c, 0.5) + Quadratic(a, b, c, 1.0))
  {
    var h := 1.0 / 128.0;
    var t, hi := lo + s * h, lo + h;
    assert c * t * t == c * lo * lo + 2.0 * c * lo * (s * h) + c * (s * h) * (s * h);
    assert c * hi * hi == c * lo * lo + 2.0 * c * lo * h + c * h * h;
    assert Quadratic(a, b, c, 0.0) - 2.0 * Quadratic(a, b, c, 0.5) + Quadratic(a, b, c, 1.0) == c / 2.0;
    assert s * (c * h * h) - c * (s * h) * (s * h) == s * (1.0 - s) * (c * h * h);
  }

  /** The derivative of a cubic is a quadratic in `t`. */
  lemma SlopeIsQuadratic(p0: real, p1: real, p2: real, p3: real, t: real)
    ensures var u, v, w := p1 - p0, p2 - p1, p3 - p2;
      Slope1(p0, p1, p2, p3, t) == Quadratic(3.0 * u, 6.0 * v - 6.0 * u, 3.0 * u - 6.0 * v + 3.0 * w, t)
  {
    var u, v, w := p1 - p0, p2 - p1, p3 - p2;
    var rest := 1.0 - t;
    assert 3.0 * rest * rest * u == 3.0 * u - 6.0 * (u * t) + 3.0 * (u * (t * t));
    assert 6.0 * rest * t * v == 6.0 * (v * t) - 6.0 * (v * (t * t));
    assert 3.0 * t * t * w == 3.0 * (w * (t * t));
  }

  /** The point between two samples, if speed were linear there. */
  function Chord(a: Vec, b: Vec, s: real): Vec {
    Add(Scale(1.0 - s, a), Scale(s, b))
  }

  /** How far the true derivative bows away from that point. */
  function Arc(q0: Vec, qm: Vec, q1: Vec, bow: real): Vec {
    Add(Add(Scale(-bow, q0), Scale(-bow, q1)), Scale(2.0 * bow, qm))
  }

  lemma InterpolateSlope(p0: real, p1: real, p2: real, p3: real, lo: real, s: real)
    ensures var h := 1.0 / 128.0;
      Slope1(p0, p1, p2, p3, lo + s * h)
      == (1.0 - s) * Slope1(p0, p1, p2, p3, lo) + s * Slope1(p0, p1, p2, p3, lo + h)
         - Bow(s) * (Slope1(p0, p1, p2, p3, 0.0) - 2.0 * Slope1(p0, p1, p2, p3, 0.5)
                     + Slope1(p0, p1, p2, p3, 1.0))
  {
    hide Slope1, Quadratic, Bow;
    var h := 1.0 / 128.0;
    var u, v, w := p1 - p0, p2 - p1, p3 - p2;
    Interpolate(3.0 * u, 6.0 * v - 6.0 * u, 3.0 * u - 6.0 * v + 3.0 * w, lo, s);
    SlopeIsQuadratic(p0, p1, p2, p3, lo + s * h);
    SlopeIsQuadratic(p0, p1, p2, p3, lo);
    SlopeIsQuadratic(p0, p1, p2, p3, lo + h);
    SlopeIsQuadratic(p0, p1, p2, p3, 0.0);
    SlopeIsQuadratic(p0, p1, p2, p3, 0.5);
    SlopeIsQuadratic(p0, p1, p2, p3, 1.0);
  }

  /** The same on one axis, in the terms of `Chord` and `Arc`. */
  lemma InterpolateAxis(p0: real, p1: real, p2: real, p3: real, lo: real, s: real)
    ensures var h := 1.0 / 128.0;
      Slope1(p0, p1, p2, p3, lo + s * h)
      == (1.0 - s) * Slope1(p0, p1, p2, p3, lo) + s * Slope1(p0, p1, p2, p3, lo + h)
         + (-Bow(s) * Slope1(p0, p1, p2, p3, 0.0) + -Bow(s) * Slope1(p0, p1, p2, p3, 1.0)
            + 2.0 * Bow(s) * Slope1(p0, p1, p2, p3, 0.5))
  {
    hide Slope1, Bow;
    InterpolateSlope(p0, p1, p2, p3, lo, s);
    BowTerms(Slope1(p0, p1, p2, p3, 0.0), Slope1(p0, p1, p2, p3, 0.5), Slope1(p0, p1, p2, p3, 1.0), Bow(s));
  }

  lemma InterpolatePath(p0: Vec, p1: Vec, p2: Vec, p3: Vec, lo: real, s: real)
    ensures var h := 1.0 / 128.0;
      CubicDerivative(p0, p1, p2, p3, lo + s * h)
      == Add(Chord(CubicDerivative(p0, p1, p2, p3, lo), CubicDerivative(p0, p1, p2, p3, lo + h), s),
             Arc(CubicDerivative(p0, p1, p2, p3, 0.0), CubicDerivative(p0, p1, p2, p3, 0.5),
                 CubicDerivative(p0, p1, p2, p3, 1.0), Bow(s)))
  {
    hide Slope1, Bow;
    InterpolateAxis(p0.x, p1.x, p2.x, p3.x, lo, s);
    InterpolateAxis(p0.y, p1.y, p2.y, p3.y, lo, s);
  }

  lemma BowTerms(x: real, y: real, z: real, bow: real)
    ensures -bow * x + -bow * z + 2.0 * bow * y == -(bow * (x - 2.0 * y + z))
  {
  }

  lemma ChordWithin(a: Vec, b: Vec, s: real, m: real)
    requires Within(a, m) && Within(b, m) && 0.0 <= s <= 1.0
    ensures Within(Chord(a, b, s), m)
  {
    hide Within;
    WithinScale(a, m, 1.0 - s, 1.0 - s);
    WithinScale(b, m, s, s);
    WithinAdd(Scale(1.0 - s, a), Scale(s, b), (1.0 - s) * m, s * m);
    assert (1.0 - s) * m + s * m == m;
  }

  lemma ArcWithin(q0: Vec, qm: Vec, q1: Vec, bow: real, m: real)
    requires Within(q0, m) && Within(qm, m) && Within(q1, m) && 0.0 <= bow <= 1.0 / 32768.0
    ensures Within(Arc(q0, qm, q1, bow), m / 8192.0)
  {
    assert m >= 0.0;
    hide Within;
    var c := 1.0 / 32768.0;
    WithinScale(q0, m, -bow, c);
    WithinScale(q1, m, -bow, c);
    WithinScale(qm, m, 2.0 * bow, 2.0 * c);
    WithinAdd(Scale(-bow, q0), Scale(-bow, q1), c * m, c * m);
    WithinAdd(Add(Scale(-bow, q0), Scale(-bow, q1)), Scale(2.0 * bow, qm), c * m + c * m, 2.0 * c * m);
  }

  lemma BowSmall(s: real)
    requires 0.0 <= s <= 1.0
    ensures 0.0 <= Bow(s) <= 1.0 / 32768.0
  {
    var rest, off := 1.0 - s, s - 0.5;
    ProductMonotone(0.0, s, 0.0, rest);
    assert off * off >= 0.0;
    assert s * rest == 0.25 - off * off;
  }

  /** 129 closed samples bound the speed of the whole path, up to one part in 8192. */
  lemma SamplesBoundPath(hyp: Hypot, p0: Vec, p1: Vec, p2: Vec, p3: Vec, m: real, t: real)
    requires IsHypot(hyp) && 0.0 <= t <= 1.0
    requires PeakPathSpeed(hyp, p0, p1, p2, p3) <= m
    ensures Speed(hyp, p0, p1, p2, p3, t) <= m + m / 8192.0
  {
    hide CubicDerivative, Within, PeakPathSpeed, IsHypot, Bow, Chord, Arc;
    var i, s := SampleBelow(t);
    SampleWithin(hyp, p0, p1, p2, p3, m, i);
    SampleWithin(hyp, p0, p1, p2, p3, m, i + 1);
    SampleWithin(hyp, p0, p1, p2, p3, m, 0);
    SampleWithin(hyp, p0, p1, p2, p3, m, 64);
    SampleWithin(hyp, p0, p1, p2, p3, m, 128);
    var a, b := CubicDerivative(p0, p1, p2, p3, Sample(i)), CubicDerivative(p0, p1, p2, p3, Sample(i + 1));
    var q0, qm := CubicDerivative(p0, p1, p2, p3, 0.0), CubicDerivative(p0, p1, p2, p3, 0.5);
    var q1 := CubicDerivative(p0, p1, p2, p3, 1.0);
    InterpolatePath(p0, p1, p2, p3, Sample(i), s);
    BowSmall(s);
    ChordWithin(a, b, s, m);
    ArcWithin(q0, qm, q1, Bow(s), m);
    WithinAdd(Chord(a, b, s), Arc(q0, qm, q1, Bow(s)), m, m / 8192.0);
    WithinLength(hyp, CubicDerivative(p0, p1, p2, p3, t), m + m / 8192.0);
  }

  /** The sample interval that holds `t`. */
  lemma SampleBelow(t: real) returns (i: nat, s: real)
    requires 0.0 <= t <= 1.0
    ensures i < 128 && 0.0 <= s <= 1.0
    ensures t == Sample(i) + s * (1.0 / 128.0) && Sample(i + 1) == Sample(i) + 1.0 / 128.0
    ensures Sample(0) == 0.0 && Sample(64) == 0.5 && Sample(128) == 1.0
  {
    i := if t == 1.0 then 127 else (128.0 * t).Floor;
    s := 128.0 * t - i as real;
  }

  lemma SampleWithin(hyp: Hypot, p0: Vec, p1: Vec, p2: Vec, p3: Vec, m: real, i: nat)
    requires IsHypot(hyp) && i < |Samples()|
    requires PeakPathSpeed(hyp, p0, p1, p2, p3) <= m
    ensures Within(CubicDerivative(p0, p1, p2, p3, Sample(i)), m)
  {
    hide Speed;
    PeakIsLargest(hyp, p0, p1, p2, p3, Samples());
    assert Samples()[i] == Sample(i);
    assert Speed(hyp, p0, p1, p2, p3, Sample(i)) <= m;
    SpeedIsLength(hyp, p0, p1, p2, p3, Sample(i));
    WithinLength(hyp, CubicDerivative(p0, p1, p2, p3, Sample(i)), m);
  }

  lemma SpeedIsLength(hyp: Hypot, p0: Vec, p1: Vec, p2: Vec, p3: Vec, t: real)
    ensures Speed(hyp, p0, p1, p2, p3, t) == Length(hyp, CubicDerivative(p0, p1, p2, p3, t))
  {
  }

  // ---- the speed is that of the path ---------------------------------------

  /** A cubic by powers of its parameter, and its slope. */
  function Power(c0: real, c1: real, c2: real, c3: real, t: real): real {
    c0 + (c1 * t + c2 * (t * t) + c3 * (t * t * t))
  }

  function PowerSlope(c1: real, c2: real, c3: real, t: real): real {
    c1 + c2 * (2.0 * t) + c3 * (3.0 * (t * t))
  }

  lemma CubicForm(p0: real, p1: real, p2: real, p3: real) returns (c1: real, c2: real, c3: real)
    ensures forall t: real :: Cubic1(p0, p1, p2, p3, t) == Power(p0, c1, c2, c3, t)
    ensures forall t: real :: Slope1(p0, p1, p2, p3, t) == PowerSlope(c1, c2, c3, t)
  {
    c1, c2, c3 := 3.0 * (p1 - p0), 3.0 * (p0 - 2.0 * p1 + p2), p3 - 3.0 * p2 + 3.0 * p1 - p0;
  }

  /** The mean of three speeds, the middle one counted four times. */
  function Mean(first: real, middle: real, last: real): real {
    (first + 4.0 * middle + last) / 6.0
  }

  lemma PowerMoves(c0: real, c1: real, c2: real, c3: real, a: real, b: real)
    ensures Power(c0, c1, c2, c3, b) - Power(c0, c1, c2, c3, a)
         == (b - a) * Mean(PowerSlope(c1, c2, c3, a), PowerSlope(c1, c2, c3, (a + b) / 2.0), PowerSlope(c1, c2, c3, b))
  {
    var m, d := (a + b) / 2.0, b - a;
    var s2, s3 := Mean(2.0 * a, 2.0 * m, 2.0 * b), Mean(3.0 * (a * a), 3.0 * (m * m), 3.0 * (b * b));
    SquareMoves(a, b, m);
    CubeMoves(a, b, m);
    Collected(c1, c2, c3, b, b * b, b * b * b, a, a * a, a * a * a, d, s2, s3);
    MeanSlope(c1, c2, c3, a, m, b);
  }

  lemma SquareMoves(a: real, b: real, m: real)
    requires m == (a + b) / 2.0
    ensures b * b - a * a == (b - a) * Mean(2.0 * a, 2.0 * m, 2.0 * b)
  {
  }

  lemma CubeMoves(a: real, b: real, m: real)
    requires m == (a + b) / 2.0
    ensures b * b * b - a * a * a == (b - a) * Mean(3.0 * (a * a), 3.0 * (m * m), 3.0 * (b * b))
  {
    assert 4.0 * (m * m) == a * a + 2.0 * (a * b) + b * b;
    assert Mean(3.0 * (a * a), 3.0 * (m * m), 3.0 * (b * b)) == a * a + a * b + b * b;
    assert (b - a) * (a * a + a * b + b * b) == b * b * b - a * a * a;
  }

  lemma Collected(c1: real, c2: real, c3: real, b1: real, b2: real, b3: real,
                  a1: real, a2: real, a3: real, d: real, s2: real, s3: real)
    requires b1 - a1 == d && b2 - a2 == d * s2 && b3 - a3 == d * s3
    ensures (c1 * b1 + c2 * b2 + c3 * b3) - (c1 * a1 + c2 * a2 + c3 * a3) == d * (c1 + c2 * s2 + c3 * s3)
  {
    assert c1 * b1 - c1 * a1 == c1 * d;
    assert c2 * b2 - c2 * a2 == c2 * (b2 - a2) == d * (c2 * s2);
    assert c3 * b3 - c3 * a3 == c3 * (b3 - a3) == d * (c3 * s3);
  }

  lemma MeanSlope(c1: real, c2: real, c3: real, a: real, m: real, b: real)
    ensures Mean(PowerSlope(c1, c2, c3, a), PowerSlope(c1, c2, c3, m), PowerSlope(c1, c2, c3, b))
         == c1 + c2 * Mean(2.0 * a, 2.0 * m, 2.0 * b) + c3 * Mean(3.0 * (a * a), 3.0 * (m * m), 3.0 * (b * b))
  {
    hide Mean;
    MeanOfSums(c1, c2, c3, PowerSlope(c1, c2, c3, a), PowerSlope(c1, c2, c3, m), PowerSlope(c1, c2, c3, b),
               2.0 * a, 2.0 * m, 2.0 * b, 3.0 * (a * a), 3.0 * (m * m), 3.0 * (b * b));
  }

  lemma MeanOfSums(c1: real, c2: real, c3: real, u: real, v: real, w: real,
                   x2: real, y2: real, z2: real, x3: real, y3: real, z3: real)
    requires u == c1 + c2 * x2 + c3 * x3 && v == c1 + c2 * y2 + c3 * y3 && w == c1 + c2 * z2 + c3 * z3
    ensures Mean(u, v, w) == c1 + c2 * Mean(x2, y2, z2) + c3 * Mean(x3, y3, z3)
  {
    Weighted(c2, x2, y2, z2);
    Weighted(c3, x3, y3, z3);
  }

  lemma Weighted(c: real, x: real, y: real, z: real)
    ensures c * Mean(x, y, z) == Mean(c * x, c * y, c * z)
  {
    assert c * (x + 4.0 * y + z) == c * x + 4.0 * (c * y) + c * z;
  }

  /** Between any two parameters the path moves by its speed: by the mean of the speeds at both ends
      and, four times, in the middle, which is exact for a cubic. */
  lemma PathMovesBySpeed(p0: real, p1: real, p2: real, p3: real, a: real, b: real)
    ensures Cubic1(p0, p1, p2, p3, b) - Cubic1(p0, p1, p2, p3, a)
         == (b - a) * Mean(Slope1(p0, p1, p2, p3, a), Slope1(p0, p1, p2, p3, (a + b) / 2.0), Slope1(p0, p1, p2, p3, b))
  {
    hide Cubic1, Slope1, Mean;
    var c1, c2, c3 := CubicForm(p0, p1, p2, p3);
    hide Power, PowerSlope;
    PowerMoves(p0, c1, c2, c3, a, b);
  }

  /** The path runs from its first point to its last. */
  lemma PathEnds(p0: Vec, p1: Vec, p2: Vec, p3: Vec)
    ensures Cubic(p0, p1, p2, p3, 0.0) == p0 && Cubic(p0, p1, p2, p3, 1.0) == p3
  {
  }
}
