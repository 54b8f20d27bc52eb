/**
 * What the command list makes a printer do. The state that matters for
 * drawing is the tool's height and its speed factor; every G1 becomes a
 * motion to an XY point at the height and speed in force. This gives an
 * independent description of effect's output: for each path with at least
 * one segment, one travel motion to its start, then for each segment travel motions (moves) or
 * drawing motions (lines, curve samples, closes taken as lines).
 */
module Machine {
  import opened Wrappers
  import opened Affine
  import opened Bezier
  import opened Device
  import opened Emitter

  /** The last G0 Z height and M220 factor received, if any. */
  datatype Tool = Tool(z: Option<real>, speed: Option<int>)

  /** A G1 as the printer performs it: the height and speed in force, and the target. */
  datatype Motion = Motion(z: Option<real>, speed: Option<int>, x: real, y: real)

  function Step(t: Tool, c: Command): Tool
  {
    match c
    case RapidZ(z) => t.(z := Some(z))
    case SpeedPercent(s) => t.(speed := Some(s))
    case _ => t
  }

  /** The tool state after the commands, from state t. */
  function Final(t: Tool, cmds: seq<Command>): Tool
  {
    if cmds == [] then t else Step(Final(t, cmds[..|cmds| - 1]), cmds[|cmds| - 1])
  }

  function MotionOf(t: Tool, c: Command): seq<Motion>
  {
    if c.LinearMove? then [Motion(t.z, t.speed, c.x, c.y)] else []
  }

  /** The motions the commands make, from state t. */
  function Trace(t: Tool, cmds: seq<Command>): seq<Motion>
  {
    if cmds == [] then []
    else Trace(t, cmds[..|cmds| - 1]) + MotionOf(Final(t, cmds[..|cmds| - 1]), cmds[|cmds| - 1])
  }

  lemma {:induction false} FinalAppend(t: Tool, a: seq<Command>, b: seq<Command>)
    ensures Final(t, a + b) == Final(Final(t, a), b)
    decreases |b|
  {
    if b == [] {
      assert a + b == a;
    } else {
      var init := b[..|b| - 1];
      assert (a + b)[..|a + b| - 1] == a + init;
      assert (a + b)[|a + b| - 1] == b[|b| - 1];
      FinalAppend(t, a, init);
    }
  }

  /** Running two lists one after the other is running their concatenation. */
  lemma {:induction false} TraceAppend(t: Tool, a: seq<Command>, b: seq<Command>)
    ensures Trace(t, a + b) == Trace(t, a) + Trace(Final(t, a), b)
    decreases |b|
  {
    if b == [] {
      assert a + b == a;
    } else {
      var init, c := b[..|b| - 1], b[|b| - 1];
      assert (a + b)[..|a + b| - 1] == a + init;
      assert (a + b)[|a + b| - 1] == c;
      TraceAppend(t, a, init);
      FinalAppend(t, a, init);
      var m := MotionOf(Final(Final(t, a), init), c);
      assert Trace(t, a + b) == Trace(t, a + init) + m;
      assert Trace(Final(t, a), b) == Trace(Final(t, a), init) + m;
    }
  }

  // The reference description

  /** Raised to travel height at full speed. */
  function Up(opts: Options): Tool
  {
    Tool(Some(opts.travelZ), Some(100))
  }

  /** Lowered to work height at the print speed. */
  function Down(opts: Options): Tool
  {
    Tool(Some(WorkZ(opts)), Some(opts.printSpeed))
  }

  /** A motion to the device image of a local point while in state t. */
  function Reach(t: Tool, opts: Options, m: Matrix, q: Point): Motion
  {
    var r := MapPoint(opts, m, q);
    Motion(t.z, t.speed, r.x, r.y)
  }

  /** One drawing motion per point, at work height and print speed. */
  function Draws(opts: Options, m: Matrix, pts: seq<Point>): seq<Motion>
  {
    seq(|pts|, k requires 0 <= k < |pts| => Reach(Down(opts), opts, m, pts[k]))
  }

  /** What the printer does for one segment. */
  function SegmentMotions(opts: Options, m: Matrix, closeIsLine: bool, e: Segment): seq<Motion>
  {
    match e
    case Move(_, end) => [Reach(Up(opts), opts, m, end)]
    case Line(_, end) => [Reach(Down(opts), opts, m, end)]
    case Cubic(p1, p2, p3, p4) => Draws(opts, m, CubicSamples(p1, p2, p3, p4, DefaultStep))
    case Quadratic(p1, p2, p3) => Draws(opts, m, QuadraticSamples(p1, p2, p3, DefaultStep))
    case Close(_, end) => if closeIsLine then [Reach(Down(opts), opts, m, end)] else []
    case Other(_) => []
  }

  function SegmentsMotions(opts: Options, m: Matrix, closeIsLine: bool, segs: seq<Segment>): seq<Motion>
  {
    if segs == [] then []
    else SegmentsMotions(opts, m, closeIsLine, segs[..|segs| - 1])
         + SegmentMotions(opts, m, closeIsLine, segs[|segs| - 1])
  }

  /** What the printer does for one path: a travel to its start, then its segments. */
  function PathMotions(opts: Options, m: Matrix, closeIsLine: bool, segs: seq<Segment>): seq<Motion>
  {
    if segs == [] then []
    else [Reach(Up(opts), opts, m, segs[0].start)] + SegmentsMotions(opts, m, closeIsLine, segs)
  }

  function BodyMotions(opts: Options, closeIsLine: bool, jobs: seq<Job>): seq<Motion>
  {
    if jobs == [] then []
    else BodyMotions(opts, closeIsLine, jobs[..|jobs| - 1])
         + PathMotions(opts, jobs[|jobs| - 1].matrix, closeIsLine, jobs[|jobs| - 1].segments)
  }

  // Commands against motions

  /** The G1s of a curve, run at work height, are the drawing motions to its samples. */
  lemma {:induction false} MovesTrace(opts: Options, m: Matrix, pts: seq<Point>)
    ensures Trace(Down(opts), MovesTo(opts, m, pts)) == Draws(opts, m, pts)
    ensures Final(Down(opts), MovesTo(opts, m, pts)) == Down(opts)
    decreases |pts|
  {
    if pts != [] {
      var init := pts[..|pts| - 1];
      var cmds := MovesTo(opts, m, pts);
      assert cmds[..|cmds| - 1] == MovesTo(opts, m, init);
      MovesTrace(opts, m, init);
      assert Draws(opts, m, pts) == Draws(opts, m, init) + [Reach(Down(opts), opts, m, pts[|pts| - 1])];
    }
  }

  /** Commands without a G1 make no motion. */
  lemma {:induction false} NoMotion(t: Tool, cmds: seq<Command>)
    requires forall k :: 0 <= k < |cmds| ==> !cmds[k].LinearMove?
    ensures Trace(t, cmds) == []
    decreases |cmds|
  {
    if cmds != [] {
      NoMotion(t, cmds[..|cmds| - 1]);
    }
  }

  /** Commands that set neither height nor speed leave the tool as it was. */
  lemma {:induction false} NoSetting(t: Tool, cmds: seq<Command>)
    requires forall k :: 0 <= k < |cmds| ==> !cmds[k].RapidZ? && !cmds[k].SpeedPercent?
    ensures Final(t, cmds) == t
    decreases |cmds|
  {
    if cmds != [] {
      NoSetting(t, cmds[..|cmds| - 1]);
    }
  }

  /** Two setting commands followed by G1s: the settings fix the state of the G1s. */
  lemma ModeTrace(t: Tool, z: real, s: int, moves: seq<Command>)
    ensures Trace(t, [RapidZ(z), SpeedPercent(s)] + moves) == Trace(Tool(Some(z), Some(s)), moves)
    ensures Final(t, [RapidZ(z), SpeedPercent(s)] + moves) == Final(Tool(Some(z), Some(s)), moves)
  {
    var mode := [RapidZ(z), SpeedPercent(s)];
    TraceAppend(t, mode, moves);
    FinalAppend(t, mode, moves);
    assert mode[..1] == [RapidZ(z)] && [RapidZ(z)][..0] == [];
    assert Final(t, mode) == Tool(Some(z), Some(s));
    NoMotion(t, mode);
  }

  /** A single G1 moves in the state in force and changes nothing. */
  lemma OneMove(t: Tool, c: Command)
    requires c.LinearMove?
    ensures Trace(t, [c]) == [Motion(t.z, t.speed, c.x, c.y)]
    ensures Final(t, [c]) == t
  {
    assert [c][..0] == [];
  }

  /** A travel block moves at travel height and full speed, and leaves the tool there. */
  lemma TravelTrace(t: Tool, opts: Options, m: Matrix, q: Point)
    ensures Trace(t, TravelTo(opts, m, q)) == [Reach(Up(opts), opts, m, q)]
    ensures Final(t, TravelTo(opts, m, q)) == Up(opts)
  {
    ModeTrace(t, opts.travelZ, 100, [MoveTo(opts, m, q)]);
    OneMove(Up(opts), MoveTo(opts, m, q));
    assert TravelTo(opts, m, q) == [RapidZ(opts.travelZ), SpeedPercent(100)] + [MoveTo(opts, m, q)];
  }

  /** A line block draws one motion at work height and print speed. */
  lemma LineTrace(t: Tool, opts: Options, m: Matrix, q: Point)
    ensures Trace(t, LineBlock(opts, m, q)) == [Reach(Down(opts), opts, m, q)]
  {
    ModeTrace(t, WorkZ(opts), opts.printSpeed, [MoveTo(opts, m, q)]);
    OneMove(Down(opts), MoveTo(opts, m, q));
  }

  /** A curve block draws its samples in order at work height and print speed. */
  lemma CurveTrace(t: Tool, opts: Options, m: Matrix, pts: seq<Point>)
    ensures Trace(t, CurveBlock(opts, m, pts)) == Draws(opts, m, pts)
  {
    ModeTrace(t, WorkZ(opts), opts.printSpeed, MovesTo(opts, m, pts));
    MovesTrace(opts, m, pts);
  }

  /**
   * A segment's commands do what the reference says from any state: every
   * non-empty block sets height and speed itself before its first G1.
   */
  lemma SegmentTrace(t: Tool, opts: Options, m: Matrix, closeIsLine: bool, e: Segment)
    ensures Trace(t, SegmentCommands(opts, m, closeIsLine, e)) == SegmentMotions(opts, m, closeIsLine, e)
  {
    match e
    case Move(_, end) => TravelTrace(t, opts, m, end);
    case Line(_, end) => LineTrace(t, opts, m, end);
    case Close(_, end) => LineTrace(t, opts, m, end);
    case Cubic(p1, p2, p3, p4) => CurveTrace(t, opts, m, CubicSamples(p1, p2, p3, p4, DefaultStep));
    case Quadratic(p1, p2, p3) => CurveTrace(t, opts, m, QuadraticSamples(p1, p2, p3, DefaultStep));
    case Other(_) =>
  }

  lemma {:induction false} SegmentsTrace(t: Tool, opts: Options, m: Matrix, closeIsLine: bool, segs: seq<Segment>)
    ensures Trace(t, SegmentsCommands(opts, m, closeIsLine, segs)) == SegmentsMotions(opts, m, closeIsLine, segs)
    decreases |segs|
  {
    if segs != [] {
      var init, e := segs[..|segs| - 1], segs[|segs| - 1];
      var done := SegmentsCommands(opts, m, closeIsLine, init);
      TraceAppend(t, done, SegmentCommands(opts, m, closeIsLine, e));
      SegmentsTrace(t, opts, m, closeIsLine, init);
      SegmentTrace(Final(t, done), opts, m, closeIsLine, e);
    }
  }

  /**
   * One path's commands make exactly the reference motions, whatever state
   * the previous path left: a travel to the start, then each segment's
   * travels and drawings in order.
   */
  lemma PathTrace(t: Tool, opts: Options, m: Matrix, closeIsLine: bool, segs: seq<Segment>)
    ensures Trace(t, PathCommands(opts, m, closeIsLine, segs)) == PathMotions(opts, m, closeIsLine, segs)
  {
    if segs != [] {
      var travel := TravelTo(opts, m, segs[0].start);
      TraceAppend(t, travel, SegmentsCommands(opts, m, closeIsLine, segs));
      TravelTrace(t, opts, m, segs[0].start);
      SegmentsTrace(Up(opts), opts, m, closeIsLine, segs);
    }
  }

  lemma {:induction false} BodyTrace(t: Tool, opts: Options, closeIsLine: bool, jobs: seq<Job>)
    ensures Trace(t, Body(opts, closeIsLine, jobs)) == BodyMotions(opts, closeIsLine, jobs)
    decreases |jobs|
  {
    if jobs != [] {
      var init, job := jobs[..|jobs| - 1], jobs[|jobs| - 1];
      var done := Body(opts, closeIsLine, init);
      TraceAppend(t, done, PathCommands(opts, job.matrix, closeIsLine, job.segments));
      BodyTrace(t, opts, closeIsLine, init);
      PathTrace(Final(t, done), opts, job.matrix, closeIsLine, job.segments);
    }
  }

  /** The setup commands neither move nor change the tool. */
  lemma PreambleTrace(t: Tool, opts: Options)
    ensures Trace(t, Preamble(opts)) == []
    ensures Final(t, Preamble(opts)) == t
  {
    NoMotion(t, Preamble(opts));
    NoSetting(t, Preamble(opts));
  }

  /**
   * The whole list makes the reference motions of its paths, in order, from
   * any initial state, and leaves the tool at travel height.
   */
  lemma LogTrace(t: Tool, opts: Options, closeIsLine: bool, jobs: seq<Job>)
    ensures Trace(t, Log(opts, closeIsLine, jobs)) == BodyMotions(opts, closeIsLine, jobs)
    ensures Final(t, Log(opts, closeIsLine, jobs)).z == Some(opts.travelZ)
  {
    PreambleTrace(t, opts);
    Framed(t, Preamble(opts), Body(opts, closeIsLine, jobs), Park(opts));
    BodyTrace(t, opts, closeIsLine, jobs);
  }

  /** A body between a prefix that does nothing and a final non-moving command. */
  lemma Framed(t: Tool, pre: seq<Command>, body: seq<Command>, last: Command)
    requires Trace(t, pre) == [] && Final(t, pre) == t && !last.LinearMove?
    ensures Trace(t, pre + body + [last]) == Trace(t, body)
    ensures Final(t, pre + body + [last]) == Step(Final(t, body), last)
  {
    var all := pre + body + [last];
    assert all[..|all| - 1] == pre + body;
    TraceAppend(t, pre, body);
    FinalAppend(t, pre, body);
  }

  /**
   * Every motion of a path is either a travel (travel height, full speed) or
   * a drawing (work height, print speed).
   */
  lemma {:induction false} SegmentsMotionsTwoModes(opts: Options, m: Matrix, closeIsLine: bool, segs: seq<Segment>)
    ensures forall k :: 0 <= k < |SegmentsMotions(opts, m, closeIsLine, segs)| ==>
              var mo := SegmentsMotions(opts, m, closeIsLine, segs)[k];
              Tool(mo.z, mo.speed) == Up(opts) || Tool(mo.z, mo.speed) == Down(opts)
    decreases |segs|
  {
    if segs != [] {
      SegmentsMotionsTwoModes(opts, m, closeIsLine, segs[..|segs| - 1]);
    }
  }
}
