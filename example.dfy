/**
 * A worked document: an svg root holding a group with the attribute
 * "translate(5,5)" that holds one path whose data reads as "M0,0 L10,0",
 * with work height 2 and the other options at their defaults. The path
 * starts with a Move, so the travel to (5, 5) appears twice before the
 * single drawn line to (15, 5).
 */
module Example {
  import opened Wrappers
  import opened Affine
  import opened Device
  import opened Document
  import opened Emitter

  /** The shape of the worked document: svg, then a group, then a path. */
  predicate Drawing(svg: Node, group: Node, path: Node)
  {
    IsSvg(svg) && svg.children == [group] &&
    IsGroup(group) && group.transform == Text("translate(5,5)", Some((5.0, 5.0)), None) &&
    group.children == [path] && IsPath(path)
  }

  /** The path library's reading of "M0,0 L10,0": a move to the origin, then a line. */
  function Segments(): seq<Segment>
  {
    [Move(Point(0.0, 0.0), Point(0.0, 0.0)), Line(Point(0.0, 0.0), Point(10.0, 0.0))]
  }

  /** The default options with the work height print_z raised to 2. */
  function WorkAtTwo(): Options
  {
    Defaults().(printZ := 2.0)
  }

  /** The walk finds the one path, under the group's translation. */
  lemma DrawingPaths(svg: Node, group: Node, path: Node)
    requires Drawing(svg, group, path)
    ensures Paths(svg, Identity()) == [PathRecord(path.d, Translation(5.0, 5.0))]
  {
    var m := Translation(5.0, 5.0);
    TagKindsExclusive(group);
    TagKindsExclusive(path);
    assert GroupMatrix(group.transform, Identity()) == m;
    PathYieldsOne(path, m, []);
    assert group.children[..0] == [] && svg.children[..0] == [];
    assert ChildPaths(group.children, m) == Paths(path, m);
    assert ChildPaths(svg.children, Identity()) == Paths(group, Identity());
  }

  /** A move to p followed by a line to q: the travel to p twice, then the line. */
  lemma MoveLinePath(opts: Options, m: Matrix, closeIsLine: bool, p: Point, q: Point)
    ensures PathCommands(opts, m, closeIsLine, [Move(p, p), Line(p, q)]) ==
            TravelTo(opts, m, p) + TravelTo(opts, m, p) + LineBlock(opts, m, q)
  {
    var segs := [Move(p, p), Line(p, q)];
    assert segs[..1][..0] == [] && segs[..1] == [segs[0]];
    assert SegmentsCommands(opts, m, closeIsLine, segs[..1]) == TravelTo(opts, m, p);
    assert SegmentsCommands(opts, m, closeIsLine, segs) == TravelTo(opts, m, p) + LineBlock(opts, m, q);
  }

  /** The path's block: the travel twice, because it opens with a Move, then the line. */
  lemma DrawingPathCommands(opts: Options, m: Matrix)
    requires opts == WorkAtTwo() && m == Translation(5.0, 5.0)
    ensures PathCommands(opts, m, false, Segments()) == [
      RapidZ(10.0), SpeedPercent(100), LinearMove(5.0, 5.0),
      RapidZ(10.0), SpeedPercent(100), LinearMove(5.0, 5.0),
      RapidZ(2.0), SpeedPercent(40), LinearMove(15.0, 5.0)]
  {
    MoveLinePath(opts, m, false, Point(0.0, 0.0), Point(10.0, 0.0));
    assert MoveTo(opts, m, Point(0.0, 0.0)) == LinearMove(5.0, 5.0);
    assert MoveTo(opts, m, Point(10.0, 0.0)) == LinearMove(15.0, 5.0);
  }

  /** The body of a single job is that job's block. */
  lemma SingleBody(opts: Options, closeIsLine: bool, jobs: seq<Job>)
    requires |jobs| == 1
    ensures Body(opts, closeIsLine, jobs) == PathCommands(opts, jobs[0].matrix, closeIsLine, jobs[0].segments)
  {
    assert jobs[..0] == [];
  }

  /** A document with a single path that parses: the setup, that path's block, the park. */
  lemma SinglePathOutput(opts: Options, closeIsLine: bool, parse: PathData -> Option<seq<Segment>>,
                         root: Node, record: PathRecord, segs: seq<Segment>)
    requires Paths(root, Identity()) == [record] && parse(record.d) == Some(segs)
    ensures Output(opts, closeIsLine, parse, root) ==
            Some(Preamble(opts) + PathCommands(opts, record.matrix, closeIsLine, segs) + [Park(opts)])
  {
    var rs := [record];
    assert rs[..|rs| - 1] == [];
    assert ParseAll(parse, rs) == Some([] + [Job(segs, record.matrix)]);
    assert [] + [Job(segs, record.matrix)] == [Job(segs, record.matrix)];
    SingleBody(opts, closeIsLine, [Job(segs, record.matrix)]);
  }

  /** Setup, the travel to (5, 5) twice, the line to (15, 5) at height 2, the park. */
  function Expected(): seq<Command>
  {
    [
     InitUnits, Home, AbsolutePositioning, MaxFeedRate(400, 400),
     RapidZ(10.0), SpeedPercent(100), LinearMove(5.0, 5.0),
     RapidZ(10.0), SpeedPercent(100), LinearMove(5.0, 5.0),
     RapidZ(2.0), SpeedPercent(40), LinearMove(15.0, 5.0),
     RapidZ(10.0)]
  }

  /** effect on the worked document: the setup, the path's block, the park. */
  lemma DrawingLog(svg: Node, group: Node, path: Node, parse: PathData -> Option<seq<Segment>>, opts: Options)
    requires Drawing(svg, group, path) && parse(path.d) == Some(Segments())
    ensures Output(opts, false, parse, svg) ==
            Some(Preamble(opts) + PathCommands(opts, Translation(5.0, 5.0), false, Segments()) + [Park(opts)])
  {
    DrawingPaths(svg, group, path);
    SinglePathOutput(opts, false, parse, svg, PathRecord(path.d, Translation(5.0, 5.0)), Segments());
  }

  /** The commands effect produces for the worked document. */
  lemma DrawingOutput(svg: Node, group: Node, path: Node, parse: PathData -> Option<seq<Segment>>, opts: Options)
    requires Drawing(svg, group, path) && parse(path.d) == Some(Segments())
    requires opts == WorkAtTwo()
    ensures Output(opts, false, parse, svg) == Some(Expected())
  {
    DrawingLog(svg, group, path, parse, opts);
    var block := PathCommands(opts, Translation(5.0, 5.0), false, Segments());
    DrawingPathCommands(opts, Translation(5.0, 5.0));
    FrameAround(opts, block);
  }

  /** The worked path's block between the setup and the park. */
  lemma FrameAround(opts: Options, block: seq<Command>)
    requires opts == WorkAtTwo()
    requires block == [
      RapidZ(10.0), SpeedPercent(100), LinearMove(5.0, 5.0),
      RapidZ(10.0), SpeedPercent(100), LinearMove(5.0, 5.0),
      RapidZ(2.0), SpeedPercent(40), LinearMove(15.0, 5.0)]
    ensures Preamble(opts) + block + [Park(opts)] == Expected()
  {
  }
}
