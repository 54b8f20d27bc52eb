/**
 * The plug-in's options and its point map GcodeGenerator.transform, which takes
 * a point of a path's local frame to device coordinates.
 */
module Device {
  import opened Affine

  /**
   * The options the plug-in declares, with their types: width, height and the
   * speeds are integers, the heights are floating-point numbers. The output file
   * name is not part of the model.
   */
  datatype Options = Options(
    width: int,
    height: int,
    maxSpeed: int,
    printSpeed: int,
    depthZ: real,
    printZ: real,
    travelZ: real,
    invertY: bool)

  /** The options' default values. */
  function Defaults(): Options
  {
    Options(220, 220, 400, 40, 0.0, 0.0, 10.0, false)
  }

  /** The vertical flip y -> height - y that invert_y asks for. */
  function Flip(opts: Options, q: Point): Point
  {
    if opts.invertY then Point(q.x, opts.height as real - q.y) else q
  }

  /**
   * The matrix of the map the plug-in actually applies. Because the source
   * overwrites x before it computes y, y' = b*x' + d*y + f uses the new x', and
   * so the map is the affine map (a, b*a, c, b*c + d, e, b*e + f), not m.
   */
  function AsWrittenMatrix(m: Matrix): Matrix
  {
    Matrix(m.a, m.b * m.a, m.c, m.b * m.c + m.d, m.e, m.b * m.e + m.f)
  }

  /**
   * The point map as the source computes it: x' = a*x + c*y + e, then
   * y' = b*x' + d*y + f with the updated x', then y' := height - y' if invert_y.
   */
  function MapPoint(opts: Options, m: Matrix, p: Point): (r: Point)
    ensures r == Flip(opts, Apply(AsWrittenMatrix(m), p))
  {
    var x := p.x * m.a + p.y * m.c + m.e;
    var y := x * m.b + p.y * m.d + m.f;
    Point(x, if opts.invertY then opts.height as real - y else y)
  }

  /** GcodeGenerator.transform: x and then y are overwritten in place. */
  method Transform(opts: Options, x: real, y: real, m: Matrix) returns (r: Point)
    ensures r == MapPoint(opts, m, Point(x, y))
  {
    var px, py := x, y;
    px := px * m.a + py * m.c + m.e;
    py := px * m.b + py * m.d + m.f;
    if opts.invertY {
      py := opts.height as real - py;
    }
    r := Point(px, py);
  }

  /** The x coordinate is always the textbook one. */
  lemma MapPointX(opts: Options, m: Matrix, p: Point)
    ensures MapPoint(opts, m, p).x == Apply(m, p).x
  {
  }

  /**
   * The as-written map agrees with the textbook map followed by the flip exactly
   * when b = 0 or the textbook x' equals x; in particular for the identity and
   * for every translation.
   */
  lemma {:induction false} MapPointTextbookIff(opts: Options, m: Matrix, p: Point)
    ensures MapPoint(opts, m, p) == Flip(opts, Apply(m, p)) <==> (m.b == 0.0 || Apply(m, p).x == p.x)
  {
    var q := Apply(m, p);
    var r := Apply(AsWrittenMatrix(m), p);
    assert r.x == q.x;
    assert r.y - q.y == m.b * (q.x - p.x);
    if r.y == q.y {
      assert m.b * (q.x - p.x) == 0.0;
    }
  }

  lemma MapPointNoShear(opts: Options, m: Matrix, p: Point)
    requires m.b == 0.0
    ensures MapPoint(opts, m, p) == Flip(opts, Apply(m, p))
  {
    MapPointTextbookIff(opts, m, p);
  }

  /**
   * A quarter turn (a, b, c, d) = (0, 1, -1, 0) sends (1, 0) to (0, 1); the
   * as-written map sends it to (0, 0).
   */
  lemma QuarterTurnMisplaced(opts: Options)
    requires !opts.invertY
    ensures Apply(QuarterTurn(), Point(1.0, 0.0)) == Point(0.0, 1.0)
    ensures MapPoint(opts, QuarterTurn(), Point(1.0, 0.0)) == Point(0.0, 0.0)
  {
    var x := 1.0 * 0.0 + 0.0 * -1.0 + 0.0;
    assert x == 0.0;
  }

  function QuarterTurn(): Matrix
  {
    Matrix(0.0, 1.0, -1.0, 0.0, 0.0, 0.0)
  }

  /** With invert_y the point is the unflipped one mirrored against the height. */
  lemma MapPointInverted(opts: Options, m: Matrix, p: Point)
    requires opts.invertY
    ensures MapPoint(opts, m, p) == Point(MapPoint(opts.(invertY := false), m, p).x,
                                          opts.height as real - MapPoint(opts.(invertY := false), m, p).y)
  {
  }
}
