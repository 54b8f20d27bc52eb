/**
 * The curve generators' parameter loop in IEEE 754 binary64 arithmetic, the
 * arithmetic Python floats use. The literal 0.05 is the double nearest 0.05,
 * and every `t += step` rounds the exact sum to the nearest double (ties to
 * even). Twenty of those additions carry t past 1 before it reaches 1:
 * the last parameter visited is just above 0.95, so the end point of a
 * curve, at t = 1, is never produced. Exact-real sampling, which does reach
 * t = 1, is in module Bezier.
 */
module Floating {
  import opened Affine
  import opened Bezier
  import opened Device
  import opened Emitter

  /** 2^-52, the spacing of doubles in [1, 2). */
  const Ulp52: real := 1.0 / 4503599627370496.0

  /** The spacing of doubles around x, for x from 2^-5 up to 2. */
  function Ulp(x: real): (u: real)
    requires 0.03125 <= x < 2.0
    ensures u > 0.0
  {
    if x >= 1.0 then Ulp52
    else if x >= 0.5 then Ulp52 / 2.0
    else if x >= 0.25 then Ulp52 / 4.0
    else if x >= 0.125 then Ulp52 / 8.0
    else if x >= 0.0625 then Ulp52 / 16.0
    else Ulp52 / 32.0
  }

  /** The integer nearest q, ties to even. */
  function RoundToEven(q: real): (n: int)
    ensures q - 0.5 <= n as real <= q + 0.5
  {
    var f := q.Floor;
    var rest := q - f as real;
    if rest < 0.5 then f
    else if rest > 0.5 then f + 1
    else if f % 2 == 0 then f
    else f + 1
  }

  /** q rounds to n when it lies within a half of n, and n is even if exactly a half away. */
  lemma RoundToEvenIs(q: real, n: int)
    requires n as real - 0.5 <= q <= n as real + 0.5
    requires q == n as real - 0.5 || q == n as real + 0.5 ==> n % 2 == 0
    ensures RoundToEven(q) == n
  {
  }

  /** The double nearest x: the nearest multiple of the spacing there, ties to even. */
  function RoundToDouble(x: real): real
    requires 0.03125 <= x < 2.0
  {
    RoundToEven(x / Ulp(x)) as real * Ulp(x)
  }

  /** The double the literal 0.05 stands for. */
  const DoubleStep: real := 3602879701896397.0 / 72057594037927936.0

  lemma DoubleStepIsNearest()
    ensures RoundToDouble(0.05) == DoubleStep
    ensures DoubleStep > 0.05
  {
  }

  /** `t += step` on doubles, in the range the loop needs. */
  function AddDouble(t: real, step: real): real
    requires 0.03125 <= t + step < 2.0
  {
    RoundToDouble(t + step)
  }

  /** The values t takes in the loop: 0 and the twenty rounded sums after it. */
  const DoubleTimes: seq<real> := [
    0.0,
    3602879701896397.0 / 72057594037927936.0,
    3602879701896397.0 / 36028797018963968.0,
    1351079888211149.0 / 9007199254740992.0,
    3602879701896397.0 / 18014398509481984.0,
    1.0 / 4.0,
    5404319552844595.0 / 18014398509481984.0,
    3152519739159347.0 / 9007199254740992.0,
    7205759403792793.0 / 18014398509481984.0,
    2026619832316723.0 / 4503599627370496.0,
    9007199254740991.0 / 18014398509481984.0,
    4953959590107545.0 / 9007199254740992.0,
    5404319552844595.0 / 9007199254740992.0,
    5854679515581645.0 / 9007199254740992.0,
    6305039478318695.0 / 9007199254740992.0,
    6755399441055745.0 / 9007199254740992.0,
    7205759403792795.0 / 9007199254740992.0,
    7656119366529845.0 / 9007199254740992.0,
    8106479329266895.0 / 9007199254740992.0,
    8556839292003945.0 / 9007199254740992.0,
    4503599627370497.0 / 4503599627370496.0]

  /**
   * The twenty additions, one lemma each: entry k plus the step lies within
   * half a spacing of entry k + 1 (exactly half-way, with an even multiple,
   * for k = 2 and k = 3).
   */
  lemma Step0(t: real)
    requires t == 0.0
    ensures 0.03125 <= t + DoubleStep < 2.0
    ensures AddDouble(t, DoubleStep) == 3602879701896397.0 / 72057594037927936.0
  {
    RoundToEvenIs((t + DoubleStep) / Ulp(t + DoubleStep), 7205759403792794);
  }

  lemma Step1(t: real)
    requires t == 3602879701896397.0 / 72057594037927936.0
    ensures 0.03125 <= t + DoubleStep < 2.0
    ensures AddDouble(t, DoubleStep) == 3602879701896397.0 / 36028797018963968.0
  {
    RoundToEvenIs((t + DoubleStep) / Ulp(t + DoubleStep), 7205759403792794);
  }

  lemma Step2(t: real)
    requires t == 3602879701896397.0 / 36028797018963968.0
    ensures 0.03125 <= t + DoubleStep < 2.0
    ensures AddDouble(t, DoubleStep) == 1351079888211149.0 / 9007199254740992.0
  {
    RoundToEvenIs((t + DoubleStep) / Ulp(t + DoubleStep), 5404319552844596);
  }

  lemma Step3(t: real)
    requires t == 1351079888211149.0 / 9007199254740992.0
    ensures 0.03125 <= t + DoubleStep < 2.0
    ensures AddDouble(t, DoubleStep) == 3602879701896397.0 / 18014398509481984.0
  {
    RoundToEvenIs((t + DoubleStep) / Ulp(t + DoubleStep), 7205759403792794);
  }

  lemma Step4(t: real)
    requires t == 3602879701896397.0 / 18014398509481984.0
    ensures 0.03125 <= t + DoubleStep < 2.0
    ensures AddDouble(t, DoubleStep) == 1.0 / 4.0
  {
    RoundToEvenIs((t + DoubleStep) / Ulp(t + DoubleStep), 4503599627370496);
  }

  lemma Step5(t: real)
    requires t == 1.0 / 4.0
    ensures 0.03125 <= t + DoubleStep < 2.0
    ensures AddDouble(t, DoubleStep) == 5404319552844595.0 / 18014398509481984.0
  {
    RoundToEvenIs((t + DoubleStep) / Ulp(t + DoubleStep), 5404319552844595);
  }

  lemma Step6(t: real)
    requires t == 5404319552844595.0 / 18014398509481984.0
    ensures 0.03125 <= t + DoubleStep < 2.0
    ensures AddDouble(t, DoubleStep) == 3152519739159347.0 / 9007199254740992.0
  {
    RoundToEvenIs((t + DoubleStep) / Ulp(t + DoubleStep), 6305039478318694);
  }

  lemma Step7(t: real)
    requires t == 3152519739159347.0 / 9007199254740992.0
    ensures 0.03125 <= t + DoubleStep < 2.0
    ensures AddDouble(t, DoubleStep) == 7205759403792793.0 / 18014398509481984.0
  {
    RoundToEvenIs((t + DoubleStep) / Ulp(t + DoubleStep), 7205759403792793);
  }

  lemma Step8(t: real)
    requires t == 7205759403792793.0 / 18014398509481984.0
    ensures 0.03125 <= t + DoubleStep < 2.0
    ensures AddDouble(t, DoubleStep) == 2026619832316723.0 / 4503599627370496.0
  {
    RoundToEvenIs((t + DoubleStep) / Ulp(t + DoubleStep), 8106479329266892);
  }

  lemma Step9(t: real)
    requires t == 2026619832316723.0 / 4503599627370496.0
    ensures 0.03125 <= t + DoubleStep < 2.0
    ensures AddDouble(t, DoubleStep) == 9007199254740991.0 / 18014398509481984.0
  {
    RoundToEvenIs((t + DoubleStep) / Ulp(t + DoubleStep), 9007199254740991);
  }

  lemma Step10(t: real)
    requires t == 9007199254740991.0 / 18014398509481984.0
    ensures 0.03125 <= t + DoubleStep < 2.0
    ensures AddDouble(t, DoubleStep) == 4953959590107545.0 / 9007199254740992.0
  {
    RoundToEvenIs((t + DoubleStep) / Ulp(t + DoubleStep), 4953959590107545);
  }

  lemma Step11(t: real)
    requires t == 4953959590107545.0 / 9007199254740992.0
    ensures 0.03125 <= t + DoubleStep < 2.0
    ensures AddDouble(t, DoubleStep) == 5404319552844595.0 / 9007199254740992.0
  {
    RoundToEvenIs((t + DoubleStep) / Ulp(t + DoubleStep), 5404319552844595);
  }

  lemma Step12(t: real)
    requires t == 5404319552844595.0 / 9007199254740992.0
    ensures 0.03125 <= t + DoubleStep < 2.0
    ensures AddDouble(t, DoubleStep) == 5854679515581645.0 / 9007199254740992.0
  {
    RoundToEvenIs((t + DoubleStep) / Ulp(t + DoubleStep), 5854679515581645);
  }

  lemma Step13(t: real)
    requires t == 5854679515581645.0 / 9007199254740992.0
    ensures 0.03125 <= t + DoubleStep < 2.0
    ensures AddDouble(t, DoubleStep) == 6305039478318695.0 / 9007199254740992.0
  {
    RoundToEvenIs((t + DoubleStep) / Ulp(t + DoubleStep), 6305039478318695);
  }

  lemma Step14(t: real)
    requires t == 6305039478318695.0 / 9007199254740992.0
    ensures 0.03125 <= t + DoubleStep < 2.0
    ensures AddDouble(t, DoubleStep) == 6755399441055745.0 / 9007199254740992.0
  {
    RoundToEvenIs((t + DoubleStep) / Ulp(t + DoubleStep), 6755399441055745);
  }

  lemma Step15(t: real)
    requires t == 6755399441055745.0 / 9007199254740992.0
    ensures 0.03125 <= t + DoubleStep < 2.0
    ensures AddDouble(t, DoubleStep) == 7205759403792795.0 / 9007199254740992.0
  {
    RoundToEvenIs((t + DoubleStep) / Ulp(t + DoubleStep), 7205759403792795);
  }

  lemma Step16(t: real)
    requires t == 7205759403792795.0 / 9007199254740992.0
    ensures 0.03125 <= t + DoubleStep < 2.0
    ensures AddDouble(t, DoubleStep) == 7656119366529845.0 / 9007199254740992.0
  {
    RoundToEvenIs((t + DoubleStep) / Ulp(t + DoubleStep), 7656119366529845);
  }

  lemma Step17(t: real)
    requires t == 7656119366529845.0 / 9007199254740992.0
    ensures 0.03125 <= t + DoubleStep < 2.0
    ensures AddDouble(t, DoubleStep) == 8106479329266895.0 / 9007199254740992.0
  {
    RoundToEvenIs((t + DoubleStep) / Ulp(t + DoubleStep), 8106479329266895);
  }

  lemma Step18(t: real)
    requires t == 8106479329266895.0 / 9007199254740992.0
    ensures 0.03125 <= t + DoubleStep < 2.0
    ensures AddDouble(t, DoubleStep) == 8556839292003945.0 / 9007199254740992.0
  {
    RoundToEvenIs((t + DoubleStep) / Ulp(t + DoubleStep), 8556839292003945);
  }

  lemma Step19(t: real)
    requires t == 8556839292003945.0 / 9007199254740992.0
    ensures 0.03125 <= t + DoubleStep < 2.0
    ensures AddDouble(t, DoubleStep) == 4503599627370497.0 / 4503599627370496.0
  {
    RoundToEvenIs((t + DoubleStep) / Ulp(t + DoubleStep), 4503599627370497);
  }

  /** Each entry is the rounded sum of the one before and the step. */
  lemma DoubleTimesStep(k: nat, t: real)
    requires k < 20 && t == DoubleTimes[k]
    ensures 0.03125 <= t + DoubleStep < 2.0
    ensures AddDouble(t, DoubleStep) == DoubleTimes[k + 1]
  {
    if k < 10 {
      LowerSteps(k, t);
    } else {
      UpperSteps(k, t);
    }
  }

  lemma LowerSteps(k: nat, t: real)
    requires k < 10 && t == DoubleTimes[k]
    ensures 0.03125 <= t + DoubleStep < 2.0
    ensures AddDouble(t, DoubleStep) == DoubleTimes[k + 1]
  {
    if k == 0 {
      Step0(t);
    } else if k == 1 {
      Step1(t);
    } else if k == 2 {
      Step2(t);
    } else if k == 3 {
      Step3(t);
    } else if k == 4 {
      Step4(t);
    } else if k == 5 {
      Step5(t);
    } else if k == 6 {
      Step6(t);
    } else if k == 7 {
      Step7(t);
    } else if k == 8 {
      Step8(t);
    } else {
      Step9(t);
    }
  }

  lemma UpperSteps(k: nat, t: real)
    requires 10 <= k < 20 && t == DoubleTimes[k]
    ensures 0.03125 <= t + DoubleStep < 2.0
    ensures AddDouble(t, DoubleStep) == DoubleTimes[k + 1]
  {
    if k == 10 {
      Step10(t);
    } else if k == 11 {
      Step11(t);
    } else if k == 12 {
      Step12(t);
    } else if k == 13 {
      Step13(t);
    } else if k == 14 {
      Step14(t);
    } else if k == 15 {
      Step15(t);
    } else if k == 16 {
      Step16(t);
    } else if k == 17 {
      Step17(t);
    } else if k == 18 {
      Step18(t);
    } else {
      Step19(t);
    }
  }

  /** The loop runs twenty times: every visited t is below 1, the next one above. */
  lemma DoubleTimesBounds()
    ensures forall k :: 0 <= k < 20 ==> 0.0 <= DoubleTimes[k] < 1.0
    ensures DoubleTimes[20] > 1.0
  {
  }

  /**
   * The generators' loop as the source computes it in doubles: t starts at
   * 0, the curve point is produced while t <= 1, and t += 0.05 rounds.
   */
  method SampleCurveDouble(curve: real -> Point) returns (points: seq<Point>)
    ensures |points| == 20
    ensures forall k :: 0 <= k < 20 ==> points[k] == curve(DoubleTimes[k])
  {
    ghost var k: nat := 0;
    var t := 0.0;
    points := [];
    while t <= 1.0
      invariant k <= 20 && t == DoubleTimes[k]
      invariant points == PointsAt(curve, DoubleTimes[..k])
      decreases 20 - k
    {
      DoubleTimesBounds();
      assert k < 20;
      assert DoubleTimes[..k + 1][..k] == DoubleTimes[..k];
      points := points + [curve(t)];
      DoubleTimesStep(k, t);
      t := AddDouble(t, DoubleStep);
      k := k + 1;
    }
    DoubleTimesBounds();
    assert k == 20;
    PointsAtIndex(curve, DoubleTimes[..20], 0);
    forall j | 0 <= j < 20 ensures points[j] == curve(DoubleTimes[j]) {
      PointsAtIndex(curve, DoubleTimes[..20], j);
    }
  }

  /**
   * A counterexample: the straight cubic from (0, 0) to (3, 0) through
   * (1, 0) and (2, 0) is x = 3t; its last sample in doubles lies at
   * x = 3 * t19, about 2.85, not at its end (3, 0).
   */
  lemma DoubleLoopMissesEnd()
    ensures CubicPoint(Point(0.0, 0.0), Point(1.0, 0.0), Point(2.0, 0.0), Point(3.0, 0.0), DoubleTimes[19])
         != Point(3.0, 0.0)
  {
    var t := DoubleTimes[19];
    assert CubicCoord(0.0, 1.0, 2.0, 3.0, t) == 3.0 * t;
  }

  /**
   * A cubic's block with the samples the double loop yields: the work mode
   * and twenty G1s, 22 commands, the last one to the sample at t19, which for
   * the straight cubic of DoubleLoopMissesEnd is not its end point.
   */
  lemma DoubleCubicBlock(opts: Options, m: Matrix, p1: Point, p2: Point, p3: Point, p4: Point)
    ensures |CurveBlock(opts, m, PointsAt(t => CubicPoint(p1, p2, p3, p4, t), DoubleTimes[..20]))| == 22
    ensures CurveBlock(opts, m, PointsAt(t => CubicPoint(p1, p2, p3, p4, t), DoubleTimes[..20]))[21] ==
            MoveTo(opts, m, CubicPoint(p1, p2, p3, p4, DoubleTimes[19]))
  {
    var curve := t => CubicPoint(p1, p2, p3, p4, t);
    PointsAtIndex(curve, DoubleTimes[..20], 19);
  }
}
