/**
 * Curve sampling of gcode_generator.py: the Bernstein point formulas of a cubic
 * and a quadratic Bezier curve, and the generators that evaluate them at
 * t = 0, step, 2*step, ... while t <= 1. Arithmetic is on exact reals.
 */
module Bezier {
  import opened Affine

  /** The step the plug-in always uses (the generators' default argument). */
  const DefaultStep: real := 0.05

  function CubicCoord(v1: real, v2: real, v3: real, v4: real, t: real): real
  {
    var u := 1.0 - t;
    v1 * (u * u * u) + 3.0 * v2 * t * (u * u) + 3.0 * v3 * (t * t) * u + v4 * (t * t * t)
  }

  function QuadraticCoord(v1: real, v2: real, v3: real, t: real): real
  {
    var u := 1.0 - t;
    (u * u) * v1 + 2.0 * u * t * v2 + (t * t) * v3
  }

  /** The cubic Bezier point at t, from start p1, controls p2 and p3, end p4. */
  function CubicPoint(p1: Point, p2: Point, p3: Point, p4: Point, t: real): (r: Point)
    ensures t == 0.0 ==> r == p1
    ensures t == 1.0 ==> r == p4
  {
    Point(CubicCoord(p1.x, p2.x, p3.x, p4.x, t), CubicCoord(p1.y, p2.y, p3.y, p4.y, t))
  }

  /** The quadratic Bezier point at t, from start p1, control p2, end p3. */
  function QuadraticPoint(p1: Point, p2: Point, p3: Point, t: real): (r: Point)
    ensures t == 0.0 ==> r == p1
    ensures t == 1.0 ==> r == p3
  {
    Point(QuadraticCoord(p1.x, p2.x, p3.x, t), QuadraticCoord(p1.y, p2.y, p3.y, t))
  }

  /** How many parameters k*step the loop visits: the k with k*step <= 1. */
  function SampleCount(step: real): (n: nat)
    requires step > 0.0
    ensures n >= 1
  {
    (1.0 / step).Floor + 1
  }

  lemma {:induction false} SampleCountBound(step: real, k: nat)
    requires step > 0.0
    ensures k as real * step <= 1.0 <==> k < SampleCount(step)
  {
    var q := 1.0 / step;
    assert q * step == 1.0;
    assert k as real * step <= 1.0 <==> k as real <= q;
  }

  lemma NextParameter(step: real, k: nat, t: real)
    requires t == k as real * step
    ensures t + step == (k + 1) as real * step
  {
  }

  /**
   * The parameters the loop `t = 0; while t <= 1: ...; t += step` visits, in
   * order: they start at 0, advance by step, lie in [0, 1], and the next one
   * would exceed 1.
   */
  function Parameters(step: real): (ts: seq<real>)
    requires step > 0.0
    ensures |ts| == SampleCount(step) && ts[0] == 0.0
    ensures forall k :: 0 <= k < |ts| ==> ts[k] == k as real * step
    ensures forall k :: 0 <= k < |ts| ==> 0.0 <= ts[k] <= 1.0
    ensures ts[|ts| - 1] + step > 1.0
  {
    var ts := seq(SampleCount(step), k requires 0 <= k => k as real * step);
    forall k | 0 <= k < |ts| ensures 0.0 <= ts[k] <= 1.0 {
      SampleCountBound(step, k);
    }
    SampleCountBound(step, |ts|);
    ts
  }

  /** When step divides 1 exactly, the last parameter is 1 and the last point the curve's end. */
  lemma {:induction false} ParametersReachOne(step: real, n: nat)
    requires n >= 1 && step == 1.0 / n as real
    ensures Parameters(step)[|Parameters(step)| - 1] == 1.0
  {
    var ts := Parameters(step);
    assert n as real * step == 1.0;
    SampleCountBound(step, n);
    SampleCountBound(step, n + 1);
    assert |ts| == n + 1;
  }

  /** The samples of the cubic curve, one per parameter. */
  function CubicSamples(p1: Point, p2: Point, p3: Point, p4: Point, step: real): (s: seq<Point>)
    requires step > 0.0
    ensures |s| == |Parameters(step)| && s[0] == p1
    ensures forall k :: 0 <= k < |s| ==> s[k] == CubicPoint(p1, p2, p3, p4, Parameters(step)[k])
  {
    var ts := Parameters(step);
    seq(|ts|, k requires 0 <= k < |ts| => CubicPoint(p1, p2, p3, p4, ts[k]))
  }

  /** The samples of the quadratic curve, one per parameter. */
  function QuadraticSamples(p1: Point, p2: Point, p3: Point, step: real): (s: seq<Point>)
    requires step > 0.0
    ensures |s| == |Parameters(step)| && s[0] == p1
    ensures forall k :: 0 <= k < |s| ==> s[k] == QuadraticPoint(p1, p2, p3, Parameters(step)[k])
  {
    var ts := Parameters(step);
    seq(|ts|, k requires 0 <= k < |ts| => QuadraticPoint(p1, p2, p3, ts[k]))
  }

  /** The curve's points at the parameters ts, in order. */
  function PointsAt(curve: real -> Point, ts: seq<real>): seq<Point>
  {
    if ts == [] then [] else PointsAt(curve, ts[..|ts| - 1]) + [curve(ts[|ts| - 1])]
  }

  lemma {:induction false} PointsAtIndex(curve: real -> Point, ts: seq<real>, j: nat)
    requires j < |ts|
    ensures |PointsAt(curve, ts)| == |ts|
    ensures PointsAt(curve, ts)[j] == curve(ts[j])
  {
    var init := ts[..|ts| - 1];
    if j < |ts| - 1 {
      PointsAtIndex(curve, init, j);
    } else if |ts| > 1 {
      PointsAtIndex(curve, init, 0);
    }
  }

  /**
   * The loop shared by the generators cubic_bezier and quadratic_bezier: t
   * starts at 0, the curve point at t is produced while t <= 1, then t grows
   * by step. The curve formula is a parameter.
   */
  method SampleCurve(curve: real -> Point, step: real) returns (points: seq<Point>)
    requires step > 0.0
    ensures |points| == |Parameters(step)|
    ensures forall k :: 0 <= k < |points| ==> points[k] == curve(Parameters(step)[k])
  {
    ghost var ts := Parameters(step);
    var t := 0.0;
    ghost var k: nat := 0;
    points := [];
    while t <= 1.0
      invariant t == k as real * step
      invariant k <= |ts|
      invariant points == PointsAt(curve, ts[..k])
      decreases |ts| - k
    {
      SampleCountBound(step, k);
      NextParameter(step, k, t);
      assert ts[..k + 1][..k] == ts[..k];
      assert ts[k] == t;
      points := points + [curve(t)];
      t := t + step;
      k := k + 1;
    }
    SampleCountBound(step, k);
    assert k == |ts|;
    assert ts[..k] == ts;
    PointsAtIndex(curve, ts, 0);
    forall j | 0 <= j < k ensures points[j] == curve(ts[j]) {
      PointsAtIndex(curve, ts, j);
    }
  }

  /** The generator cubic_bezier, run to exhaustion. */
  method CubicBezier(p1: Point, p2: Point, p3: Point, p4: Point, step: real) returns (points: seq<Point>)
    requires step > 0.0
    ensures points == CubicSamples(p1, p2, p3, p4, step)
  {
    points := SampleCurve(t => CubicPoint(p1, p2, p3, p4, t), step);
    assert points == CubicSamples(p1, p2, p3, p4, step);
  }

  /** The generator quadratic_bezier, run to exhaustion. */
  method QuadraticBezier(p1: Point, p2: Point, p3: Point, step: real) returns (points: seq<Point>)
    requires step > 0.0
    ensures points == QuadraticSamples(p1, p2, p3, step)
  {
    points := SampleCurve(t => QuadraticPoint(p1, p2, p3, t), step);
    assert points == QuadraticSamples(p1, p2, p3, step);
  }
}
