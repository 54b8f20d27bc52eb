/**
 * The command emission of GcodeGenerator.effect: a preamble, then for every
 * path found by the walk a travel move to the start of its first segment and
 * one block of commands per segment, then a final park at travel height.
 * Commands are values; their G-code text is given beside each constructor.
 */
module Emitter {
  import opened Wrappers
  import opened Affine
  import opened Bezier
  import opened Device
  import opened Document

  /**
   * A segment of a parsed path in local coordinates. Other stands for every
   * segment class the emitter has no branch for (arcs among them). Whether a
   * Close segment is also a Line depends on the path library, so the emitter
   * takes that as a parameter.
   */
  datatype Segment =
    | Move(start: Point, end: Point)
    | Line(start: Point, end: Point)
    | Cubic(start: Point, control1: Point, control2: Point, end: Point)
    | Quadratic(start: Point, control: Point, end: Point)
    | Close(start: Point, end: Point)
    | Other(start: Point)

  datatype Command =
    | InitUnits                    // G21
    | Home                         // G28
    | AbsolutePositioning          // G90
    | MaxFeedRate(fx: int, fy: int) // M203 X{fx} Y{fy}
    | RapidZ(z: real)              // G0 Z{z}
    | SpeedPercent(s: int)         // M220 S{s}
    | LinearMove(x: real, y: real) // G1 X{x} Y{y}

  /** A parsed path together with the matrix the walk found for it. */
  datatype Job = Job(segments: seq<Segment>, matrix: Matrix)

  function Preamble(opts: Options): seq<Command>
  {
    [InitUnits, Home, AbsolutePositioning, MaxFeedRate(opts.maxSpeed, opts.maxSpeed)]
  }

  function Park(opts: Options): Command
  {
    RapidZ(opts.travelZ)
  }

  function WorkZ(opts: Options): real
  {
    opts.printZ - opts.depthZ
  }

  /** The G1 to a local point, mapped to device coordinates. */
  function MoveTo(opts: Options, m: Matrix, q: Point): Command
  {
    var r := MapPoint(opts, m, q);
    LinearMove(r.x, r.y)
  }

  /** Raise to travel height, full speed, and move. */
  function TravelTo(opts: Options, m: Matrix, q: Point): seq<Command>
  {
    [RapidZ(opts.travelZ), SpeedPercent(100), MoveTo(opts, m, q)]
  }

  /** Lower to work height and set the work speed. */
  function WorkMode(opts: Options): seq<Command>
  {
    [RapidZ(WorkZ(opts)), SpeedPercent(opts.printSpeed)]
  }

  /** One G1 per point, in order. */
  function MovesTo(opts: Options, m: Matrix, pts: seq<Point>): seq<Command>
  {
    seq(|pts|, k requires 0 <= k < |pts| => MoveTo(opts, m, pts[k]))
  }

  /** Work height and speed, then a G1 to one point. */
  function LineBlock(opts: Options, m: Matrix, q: Point): seq<Command>
  {
    WorkMode(opts) + [MoveTo(opts, m, q)]
  }

  /** Work height and speed, then a G1 per curve sample. */
  function CurveBlock(opts: Options, m: Matrix, samples: seq<Point>): seq<Command>
  {
    WorkMode(opts) + MovesTo(opts, m, samples)
  }

  /** What one segment adds after the optional first-segment travel. */
  function SegmentCommands(opts: Options, m: Matrix, closeIsLine: bool, e: Segment): seq<Command>
  {
    match e
    case Move(_, end) => TravelTo(opts, m, end)
    case Line(_, end) => LineBlock(opts, m, end)
    case Cubic(p1, p2, p3, p4) => CurveBlock(opts, m, CubicSamples(p1, p2, p3, p4, DefaultStep))
    case Quadratic(p1, p2, p3) => CurveBlock(opts, m, QuadraticSamples(p1, p2, p3, DefaultStep))
    case Close(_, end) => if closeIsLine then LineBlock(opts, m, end) else []
    case Other(_) => []
  }

  /** The segments' contributions, concatenated in order. */
  function SegmentsCommands(opts: Options, m: Matrix, closeIsLine: bool, segs: seq<Segment>): seq<Command>
  {
    if segs == [] then []
    else SegmentsCommands(opts, m, closeIsLine, segs[..|segs| - 1])
         + SegmentCommands(opts, m, closeIsLine, segs[|segs| - 1])
  }

  /** The block of one path: `last` is None only at the first segment. */
  function PathCommands(opts: Options, m: Matrix, closeIsLine: bool, segs: seq<Segment>): seq<Command>
  {
    if segs == [] then []
    else TravelTo(opts, m, segs[0].start) + SegmentsCommands(opts, m, closeIsLine, segs)
  }

  /** The blocks of all paths, in order. */
  function Body(opts: Options, closeIsLine: bool, jobs: seq<Job>): seq<Command>
  {
    if jobs == [] then []
    else Body(opts, closeIsLine, jobs[..|jobs| - 1])
         + PathCommands(opts, jobs[|jobs| - 1].matrix, closeIsLine, jobs[|jobs| - 1].segments)
  }

  /** The whole command list for parsed paths. */
  function Log(opts: Options, closeIsLine: bool, jobs: seq<Job>): seq<Command>
  {
    Preamble(opts) + Body(opts, closeIsLine, jobs) + [Park(opts)]
  }

  /** Parse every path in order; one failure fails the whole run. */
  function ParseAll(parse: PathData -> Option<seq<Segment>>, rs: seq<PathRecord>): Option<seq<Job>>
  {
    if rs == [] then Some([])
    else match ParseAll(parse, rs[..|rs| - 1])
      case None => None
      case Some(jobs) =>
        match parse(rs[|rs| - 1].d)
        case None => None
        case Some(segs) => Some(jobs + [Job(segs, rs[|rs| - 1].matrix)])
  }

  /** What effect produces for a document, or None when a path fails to parse. */
  function Output(opts: Options, closeIsLine: bool, parse: PathData -> Option<seq<Segment>>, root: Node): Option<seq<Command>>
  {
    match ParseAll(parse, Paths(root, Identity()))
    case None => None
    case Some(jobs) => Some(Log(opts, closeIsLine, jobs))
  }

  lemma {:induction false} ParseAllFails(parse: PathData -> Option<seq<Segment>>, rs: seq<PathRecord>, i: nat)
    requires i < |rs| && parse(rs[i].d).None?
    ensures ParseAll(parse, rs).None?
    decreases |rs|
  {
    if i < |rs| - 1 {
      ParseAllFails(parse, rs[..|rs| - 1], i);
    }
  }

  /**
   * effect: the commands are appended to one list in nested loops; `last` is
   * reset for every path. A parse failure is the exception that ends the run
   * before anything is written.
   */
  method Effect(opts: Options, closeIsLine: bool, parse: PathData -> Option<seq<Segment>>, root: Node)
    returns (out: Option<seq<Command>>)
    ensures out == Output(opts, closeIsLine, parse, root)
  {
    var commands := [];
    commands := commands + [InitUnits];
    commands := commands + [Home];
    commands := commands + [AbsolutePositioning];
    commands := commands + [MaxFeedRate(opts.maxSpeed, opts.maxSpeed)];

    var records := GetPaths(root, Identity());
    ghost var jobs: seq<Job> := [];
    for i := 0 to |records|
      invariant ParseAll(parse, records[..i]) == Some(jobs)
      invariant commands == Preamble(opts) + Body(opts, closeIsLine, jobs)
    {
      var parsed := parse(records[i].d);
      if parsed.None? {
        ParseAllFails(parse, records, i);
        return None;
      }
      var path, matrix := parsed.value, records[i].matrix;
      ghost var before := commands;
      commands := EmitPath(opts, closeIsLine, path, matrix, commands);
      ParseAllNext(parse, records, i, jobs);
      BodyNext(opts, closeIsLine, jobs, Job(path, matrix));
      AppendAssoc(Preamble(opts), Body(opts, closeIsLine, jobs), PathCommands(opts, matrix, closeIsLine, path));
      jobs := jobs + [Job(path, matrix)];
    }
    assert records[..|records|] == records;
    commands := commands + [RapidZ(opts.travelZ)];
    out := Some(commands);
  }

  lemma AppendAssoc(a: seq<Command>, b: seq<Command>, c: seq<Command>)
    ensures (a + b) + c == a + (b + c)
  {
  }

  lemma ParseAllNext(parse: PathData -> Option<seq<Segment>>, rs: seq<PathRecord>, i: nat, jobs: seq<Job>)
    requires i < |rs| && ParseAll(parse, rs[..i]) == Some(jobs) && parse(rs[i].d).Some?
    ensures ParseAll(parse, rs[..i + 1]) == Some(jobs + [Job(parse(rs[i].d).value, rs[i].matrix)])
  {
    assert rs[..i + 1][..i] == rs[..i];
  }

  lemma BodyNext(opts: Options, closeIsLine: bool, jobs: seq<Job>, job: Job)
    ensures Body(opts, closeIsLine, jobs + [job]) == Body(opts, closeIsLine, jobs) + PathCommands(opts, job.matrix, closeIsLine, job.segments)
  {
    assert (jobs + [job])[..|jobs|] == jobs;
  }

  /** The loop over the segments of one path, with `last` reset to None. */
  method EmitPath(opts: Options, closeIsLine: bool, path: seq<Segment>, matrix: Matrix, commands: seq<Command>)
    returns (r: seq<Command>)
    ensures r == commands + PathCommands(opts, matrix, closeIsLine, path)
  {
    r := commands;
    var last: Option<Segment> := None;
    for j := 0 to |path|
      invariant last == if j == 0 then None else Some(path[j - 1])
      invariant r == commands + PathCommands(opts, matrix, closeIsLine, path[..j])
    {
      var e := path[j];
      ghost var r0 := r;
      if last == None {
        r := EmitTravel(opts, e.start, matrix, r);
      }
      ghost var r1 := r;
      last := Some(e);
      r := EmitSegment(opts, closeIsLine, e, matrix, r);
      PathCommandsNext(opts, matrix, closeIsLine, path, j);
      AppendStep(commands, PathCommands(opts, matrix, closeIsLine, path[..j]), TravelTo(opts, matrix, e.start),
                 SegmentCommands(opts, matrix, closeIsLine, e), j == 0, r0, r1, r);
    }
    assert path[..|path|] == path;
  }

  /** The list algebra of one pass of the segment loop. */
  lemma AppendStep(commands: seq<Command>, done: seq<Command>, travel: seq<Command>, seg: seq<Command>,
                   first: bool, r0: seq<Command>, r1: seq<Command>, r2: seq<Command>)
    requires first ==> done == []
    requires r0 == commands + done
    requires r1 == if first then r0 + travel else r0
    requires r2 == r1 + seg
    ensures r2 == commands + ((if first then travel else done) + seg)
  {
    if first {
      assert r0 == commands;
    }
  }

  /** G0 Z{travel_z}, M220 S100 and a G1 to the transformed point. */
  method EmitTravel(opts: Options, q: Point, matrix: Matrix, commands: seq<Command>) returns (r: seq<Command>)
    ensures r == commands + TravelTo(opts, matrix, q)
  {
    r := commands + [RapidZ(opts.travelZ)];
    r := r + [SpeedPercent(100)];
    var p := Transform(opts, q.x, q.y, matrix);
    r := r + [LinearMove(p.x, p.y)];
  }

  /** G0 Z{print_z - depth_z} and M220 S{print_speed}. */
  method EmitWorkMode(opts: Options, commands: seq<Command>) returns (r: seq<Command>)
    ensures r == commands + WorkMode(opts)
  {
    r := commands + [RapidZ(WorkZ(opts))];
    r := r + [SpeedPercent(opts.printSpeed)];
  }

  /** The work-height block of a Line: height, speed and a G1 to the transformed end. */
  method EmitLineTo(opts: Options, q: Point, matrix: Matrix, commands: seq<Command>) returns (r: seq<Command>)
    ensures r == commands + LineBlock(opts, matrix, q)
  {
    r := EmitWorkMode(opts, commands);
    var p := Transform(opts, q.x, q.y, matrix);
    r := r + [LinearMove(p.x, p.y)];
  }

  /** The block of a cubic segment: work mode, then the sampled points. */
  method EmitCubic(opts: Options, p1: Point, p2: Point, p3: Point, p4: Point, matrix: Matrix, commands: seq<Command>)
    returns (r: seq<Command>)
    ensures r == commands + CurveBlock(opts, matrix, CubicSamples(p1, p2, p3, p4, DefaultStep))
  {
    r := EmitWorkMode(opts, commands);
    var samples := CubicBezier(p1, p2, p3, p4, DefaultStep);
    r := EmitMoves(opts, matrix, samples, r);
  }

  /** The block of a quadratic segment: work mode, then the sampled points. */
  method EmitQuadratic(opts: Options, p1: Point, p2: Point, p3: Point, matrix: Matrix, commands: seq<Command>)
    returns (r: seq<Command>)
    ensures r == commands + CurveBlock(opts, matrix, QuadraticSamples(p1, p2, p3, DefaultStep))
  {
    r := EmitWorkMode(opts, commands);
    var samples := QuadraticBezier(p1, p2, p3, DefaultStep);
    r := EmitMoves(opts, matrix, samples, r);
  }

  /** The isinstance tests of one segment; at most one of them holds here. */
  method EmitSegment(opts: Options, closeIsLine: bool, e: Segment, matrix: Matrix, commands: seq<Command>)
    returns (r: seq<Command>)
    ensures r == commands + SegmentCommands(opts, matrix, closeIsLine, e)
  {
    // The library's Move, Line, CubicBezier and QuadraticBezier classes are
    // unrelated, so at most one of the source's isinstance tests holds; a Close
    // passes the Line test exactly when closeIsLine.
    match e
    case Move(_, end) =>
      r := EmitTravel(opts, end, matrix, commands);
    case Line(_, end) =>
      r := EmitLineTo(opts, end, matrix, commands);
    case Close(_, end) =>
      r := commands;
      if closeIsLine {
        r := EmitLineTo(opts, end, matrix, r);
      }
    case Cubic(p1, p2, p3, p4) =>
      r := EmitCubic(opts, p1, p2, p3, p4, matrix, commands);
    case Quadratic(p1, p2, p3) =>
      r := EmitQuadratic(opts, p1, p2, p3, matrix, commands);
    case Other(_) =>
      r := commands;
  }

  /** The inner loop over curve samples: a G1 per transformed sample. */
  method EmitMoves(opts: Options, m: Matrix, samples: seq<Point>, commands: seq<Command>) returns (r: seq<Command>)
    ensures r == commands + MovesTo(opts, m, samples)
  {
    r := commands;
    for k := 0 to |samples|
      invariant r == commands + MovesTo(opts, m, samples[..k])
    {
      var p := Transform(opts, samples[k].x, samples[k].y, m);
      r := r + [LinearMove(p.x, p.y)];
      assert MovesTo(opts, m, samples[..k + 1]) == MovesTo(opts, m, samples[..k]) + [MoveTo(opts, m, samples[k])];
    }
    assert samples[..|samples|] == samples;
  }

  lemma PathCommandsNext(opts: Options, m: Matrix, closeIsLine: bool, segs: seq<Segment>, j: nat)
    requires j < |segs|
    ensures PathCommands(opts, m, closeIsLine, segs[..j + 1])
         == (if j == 0 then TravelTo(opts, m, segs[0].start) else PathCommands(opts, m, closeIsLine, segs[..j]))
            + SegmentCommands(opts, m, closeIsLine, segs[j])
  {
    var pre := segs[..j + 1];
    assert pre[..j] == segs[..j] && pre[j] == segs[j] && pre[0] == segs[0];
    var travel := TravelTo(opts, m, segs[0].start);
    var done := SegmentsCommands(opts, m, closeIsLine, segs[..j]);
    var seg := SegmentCommands(opts, m, closeIsLine, segs[j]);
    assert SegmentsCommands(opts, m, closeIsLine, pre) == done + seg;
    assert PathCommands(opts, m, closeIsLine, pre) == travel + (done + seg);
    if j == 0 {
      assert done == [];
    } else {
      assert PathCommands(opts, m, closeIsLine, segs[..j]) == travel + done;
      AppendAssoc(travel, done, seg);
    }
  }
}
