/**
 * Properties of the command list effect builds: its fixed frame, the travel
 * that opens every path, the shape of each segment's block, and when the
 * run fails.
 */
module EmitterFacts {
  import opened Wrappers
  import opened Affine
  import opened Bezier
  import opened Device
  import opened Document
  import opened Emitter

  /** The list always opens with the four setup commands and closes with the park. */
  lemma LogFrame(opts: Options, closeIsLine: bool, jobs: seq<Job>)
    ensures |Log(opts, closeIsLine, jobs)| >= 5
    ensures Log(opts, closeIsLine, jobs)[..4] == Preamble(opts)
    ensures Log(opts, closeIsLine, jobs)[|Log(opts, closeIsLine, jobs)| - 1] == RapidZ(opts.travelZ)
  {
    var log := Log(opts, closeIsLine, jobs);
    assert log == Preamble(opts) + (Body(opts, closeIsLine, jobs) + [Park(opts)]);
  }

  /** A document without paths yields only the setup and the park. */
  lemma EmptyDocument(opts: Options, closeIsLine: bool)
    ensures Log(opts, closeIsLine, []) ==
            [InitUnits, Home, AbsolutePositioning, MaxFeedRate(opts.maxSpeed, opts.maxSpeed), RapidZ(opts.travelZ)]
  {
  }

  /** The segments' blocks of a split path are the blocks of the two parts. */
  lemma {:induction false} SegmentsCommandsAppend(opts: Options, m: Matrix, closeIsLine: bool, a: seq<Segment>, b: seq<Segment>)
    ensures SegmentsCommands(opts, m, closeIsLine, a + b)
         == SegmentsCommands(opts, m, closeIsLine, a) + SegmentsCommands(opts, m, closeIsLine, b)
    decreases |b|
  {
    if b == [] {
      assert a + b == a;
    } else {
      var init, e := b[..|b| - 1], b[|b| - 1];
      var last := SegmentCommands(opts, m, closeIsLine, e);
      assert (a + b)[..|a + b| - 1] == a + init;
      assert (a + b)[|a + b| - 1] == e;
      assert SegmentsCommands(opts, m, closeIsLine, a + b) == SegmentsCommands(opts, m, closeIsLine, a + init) + last;
      SegmentsCommandsAppend(opts, m, closeIsLine, a, init);
      assert SegmentsCommands(opts, m, closeIsLine, b) == SegmentsCommands(opts, m, closeIsLine, init) + last;
      AppendAssoc(SegmentsCommands(opts, m, closeIsLine, a), SegmentsCommands(opts, m, closeIsLine, init), last);
    }
  }

  /** The body of a split job list is the bodies of the two parts. */
  lemma {:induction false} BodyAppend(opts: Options, closeIsLine: bool, a: seq<Job>, b: seq<Job>)
    ensures Body(opts, closeIsLine, a + b) == Body(opts, closeIsLine, a) + Body(opts, closeIsLine, b)
    decreases |b|
  {
    if b == [] {
      assert a + b == a;
    } else {
      var init, job := b[..|b| - 1], b[|b| - 1];
      var last := PathCommands(opts, job.matrix, closeIsLine, job.segments);
      assert (a + b)[..|a + b| - 1] == a + init;
      assert (a + b)[|a + b| - 1] == job;
      assert Body(opts, closeIsLine, a + b) == Body(opts, closeIsLine, a + init) + last;
      BodyAppend(opts, closeIsLine, a, init);
      assert Body(opts, closeIsLine, b) == Body(opts, closeIsLine, init) + last;
      AppendAssoc(Body(opts, closeIsLine, a), Body(opts, closeIsLine, init), last);
    }
  }

  /** A path without segments adds nothing, not even a travel. */
  lemma EmptyPath(opts: Options, m: Matrix, closeIsLine: bool)
    ensures PathCommands(opts, m, closeIsLine, []) == []
  {
  }

  /** The blocks of a path come right after the travel, first segment first. */
  lemma {:induction false} PathCommandsUnfold(opts: Options, m: Matrix, closeIsLine: bool, segs: seq<Segment>)
    requires segs != []
    ensures PathCommands(opts, m, closeIsLine, segs)
         == TravelTo(opts, m, segs[0].start) + SegmentCommands(opts, m, closeIsLine, segs[0])
            + SegmentsCommands(opts, m, closeIsLine, segs[1..])
  {
    assert segs == [segs[0]] + segs[1..];
    SegmentsCommandsAppend(opts, m, closeIsLine, [segs[0]], segs[1..]);
    assert SegmentsCommands(opts, m, closeIsLine, [segs[0]]) == SegmentCommands(opts, m, closeIsLine, segs[0]) by {
      assert [segs[0]][..0] == [];
    }
  }

  /**
   * Every non-empty path opens at travel height, at full speed, with a G1 to
   * the start of its first segment.
   */
  lemma PathStart(opts: Options, m: Matrix, closeIsLine: bool, segs: seq<Segment>)
    requires segs != []
    ensures |PathCommands(opts, m, closeIsLine, segs)| >= 3
    ensures PathCommands(opts, m, closeIsLine, segs)[..3] ==
            [RapidZ(opts.travelZ), SpeedPercent(100), MoveTo(opts, m, segs[0].start)]
  {
    var rest := SegmentsCommands(opts, m, closeIsLine, segs);
    assert PathCommands(opts, m, closeIsLine, segs) == TravelTo(opts, m, segs[0].start) + rest;
  }

  /**
   * A path that opens with a Move travels twice: once to the Move's start and
   * once more, through the Move's own branch, to its end.
   */
  lemma MoveFirstTravelsTwice(opts: Options, m: Matrix, closeIsLine: bool, segs: seq<Segment>)
    requires segs != [] && segs[0].Move?
    ensures |PathCommands(opts, m, closeIsLine, segs)| >= 6
    ensures PathCommands(opts, m, closeIsLine, segs)[..6] ==
            TravelTo(opts, m, segs[0].start) + TravelTo(opts, m, segs[0].end)
  {
    PathCommandsUnfold(opts, m, closeIsLine, segs);
  }

  /** The sampling step divides 1 into 20 parts, so each curve gives 21 samples. */
  lemma DefaultSampleCount()
    ensures SampleCount(DefaultStep) == 21
    ensures |Parameters(DefaultStep)| == 21
  {
    assert 1.0 / DefaultStep == 20.0;
  }

  /** With the default step the last sample of a curve is its end point. */
  lemma CurvesReachTheirEnd(p1: Point, p2: Point, p3: Point, p4: Point)
    ensures CubicSamples(p1, p2, p3, p4, DefaultStep)[20] == p4
    ensures QuadraticSamples(p1, p2, p3, DefaultStep)[20] == p3
  {
    DefaultSampleCount();
    ParametersReachOne(DefaultStep, 20);
  }

  /** The number of commands each kind of segment adds. */
  lemma SegmentCommandsLength(opts: Options, m: Matrix, closeIsLine: bool, e: Segment)
    ensures |SegmentCommands(opts, m, closeIsLine, e)| ==
            match e
            case Move(_, _) => 3
            case Line(_, _) => 3
            case Cubic(_, _, _, _) => 23
            case Quadratic(_, _, _) => 23
            case Close(_, _) => if closeIsLine then 3 else 0
            case Other(_) => 0
  {
    DefaultSampleCount();
  }

  /**
   * Every segment the emitter draws or travels ends with a G1 to the segment's
   * end point: a work-height G1 for lines, closes taken as lines and curves,
   * a travel-height one for moves.
   */
  lemma SegmentEndsAtEnd(opts: Options, m: Matrix, closeIsLine: bool, e: Segment)
    requires !e.Other? && (e.Close? ==> closeIsLine)
    ensures SegmentCommands(opts, m, closeIsLine, e) != []
    ensures SegmentCommands(opts, m, closeIsLine, e)[|SegmentCommands(opts, m, closeIsLine, e)| - 1] == MoveTo(opts, m, e.end)
  {
    match e
    case Cubic(p1, p2, p3, p4) =>
      CurvesReachTheirEnd(p1, p2, p3, p4);
      DefaultSampleCount();
    case Quadratic(p1, p2, p3) =>
      // only the quadratic half is used here; p3 fills the cubic's fourth point
      CurvesReachTheirEnd(p1, p2, p3, p3);
      DefaultSampleCount();
    case _ =>
  }

  /** A curve's block: work height and speed, then one G1 per sample in order. */
  lemma CurveBlockAt(opts: Options, m: Matrix, closeIsLine: bool, e: Segment, k: nat)
    requires e.Cubic? && k < 21
    ensures SegmentCommands(opts, m, closeIsLine, e)[..2] == [RapidZ(WorkZ(opts)), SpeedPercent(opts.printSpeed)]
    ensures SegmentCommands(opts, m, closeIsLine, e)[2 + k] ==
            MoveTo(opts, m, CubicPoint(e.start, e.control1, e.control2, e.end, k as real * DefaultStep))
  {
    DefaultSampleCount();
  }

  /** A quadratic's block: work height and speed, then one G1 per sample in order. */
  lemma QuadraticBlockAt(opts: Options, m: Matrix, closeIsLine: bool, e: Segment, k: nat)
    requires e.Quadratic? && k < 21
    ensures SegmentCommands(opts, m, closeIsLine, e)[..2] == [RapidZ(WorkZ(opts)), SpeedPercent(opts.printSpeed)]
    ensures SegmentCommands(opts, m, closeIsLine, e)[2 + k] ==
            MoveTo(opts, m, QuadraticPoint(e.start, e.control, e.end, k as real * DefaultStep))
  {
    DefaultSampleCount();
  }

  /** Every job of a successful parse is the parse of the matching record, with its matrix. */
  lemma {:induction false} ParseAllSome(parse: PathData -> Option<seq<Segment>>, rs: seq<PathRecord>)
    requires ParseAll(parse, rs).Some?
    ensures |ParseAll(parse, rs).value| == |rs|
    ensures forall i :: 0 <= i < |rs| ==>
              parse(rs[i].d).Some? &&
              ParseAll(parse, rs).value[i] == Job(parse(rs[i].d).value, rs[i].matrix)
    decreases |rs|
  {
    if rs != [] {
      ParseAllSome(parse, rs[..|rs| - 1]);
    }
  }

  /** A failed run points at a record that fails to parse. */
  lemma {:induction false} ParseAllFailure(parse: PathData -> Option<seq<Segment>>, rs: seq<PathRecord>)
    requires ParseAll(parse, rs).None?
    ensures exists i :: 0 <= i < |rs| && parse(rs[i].d).None?
    decreases |rs|
  {
    var init := rs[..|rs| - 1];
    if ParseAll(parse, init).None? {
      ParseAllFailure(parse, init);
      var i :| 0 <= i < |init| && parse(init[i].d).None?;
      assert init[i] == rs[i];
    } else {
      assert parse(rs[|rs| - 1].d).None?;
    }
  }

  /** Parsing every record fails exactly when some record fails to parse. */
  lemma ParseAllNoneIff(parse: PathData -> Option<seq<Segment>>, rs: seq<PathRecord>)
    ensures ParseAll(parse, rs).None? <==> exists i :: 0 <= i < |rs| && parse(rs[i].d).None?
  {
    if ParseAll(parse, rs).None? {
      ParseAllFailure(parse, rs);
    }
    if exists i :: 0 <= i < |rs| && parse(rs[i].d).None? {
      var i :| 0 <= i < |rs| && parse(rs[i].d).None?;
      ParseAllFails(parse, rs, i);
    }
  }

  lemma OutputNoneWhenParseFails(opts: Options, closeIsLine: bool, parse: PathData -> Option<seq<Segment>>, root: Node)
    ensures Output(opts, closeIsLine, parse, root).None? <==> ParseAll(parse, Paths(root, Identity())).None?
  {
  }

  /**
   * effect writes nothing exactly when one of the document's paths, as the
   * walk finds them, fails to parse.
   */
  lemma OutputNoneIff(opts: Options, closeIsLine: bool, parse: PathData -> Option<seq<Segment>>, root: Node)
    ensures Output(opts, closeIsLine, parse, root).None? <==>
            exists i :: 0 <= i < |Paths(root, Identity())| && parse(Paths(root, Identity())[i].d).None?
  {
    var rs := Paths(root, Identity());
    ParseAllNoneIff(parse, rs);
    OutputNoneWhenParseFails(opts, closeIsLine, parse, root);
  }
}
