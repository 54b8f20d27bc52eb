# G-code generator: a Dafny model

This project models the core of `gcode_generator.py`, an Inkscape effect.
It walks the SVG element tree and converts every path element reached through
svg and g elements into G-code for a 2.5-axis plotter or engraver. The model has these parts:

- **Affine** (`compose`, lines 63-72): six-coefficient affine matrices
  `(a, b, c, d, e, f)`, the product the walk uses to nest a group's transform
  inside its parent's, and the lemmas that this product is the composition of
  maps (child first), associative, with the identity as unit, and not
  commutative.
- **Bezier** (`cubic_bezier`, `quadratic_bezier`, lines 9-23): the Bernstein
  formulas and the sampling loop `t = 0; while t <= 1: yield; t += step`, in
  exact real arithmetic. The loop is a method with invariants, proved against
  the parameter list `0, step, 2*step, …` up to 1.
- **Floating**: the same loop in IEEE 754 binary64 arithmetic, where every
  `t += 0.05` rounds to the nearest double, ties to even. Twenty additions
  carry `t` past 1 before it ever equals 1, so the sample at t = 1 is
  never produced (see "## Findings").
- **Device** (`transform`, lines 38-43, and the plug-in's options): the
  point map as written. The code overwrites `x` before it computes `y`, so `y`
  is computed from the new `x`. The model keeps this. Lemmas state exactly
  when that agrees with the textbook map: when `b = 0`, or when the point's x
  does not change. A quarter turn shows a point it misplaces.
- **Document** (`get_paths`, lines 45-78): the pre-order walk. svg elements
  pass the incoming matrix on, groups compose their `transform` underneath
  (a `matrix(...)` in the attribute wins over a `translate(...)`, and an
  absent or empty attribute changes nothing), paths yield one record, and
  every other element yields nothing. It is modelled as a recursive function
  and as a method that grows its result list by `+=`.
- **Emitter** (`effect`, lines 80-122): the command list as a sequence of
  command values. It holds the four setup commands; for every path with at
  least one segment, a travel to the start of the first segment, then one
  block per segment; and a final
  park at travel height. The nested loops are methods proved against the
  list functions. A path that fails to parse aborts the run, and then nothing
  is written.
- **EmitterFacts** and **Machine**: properties of that list. Machine gives an
  independent reading of the commands: what a printer does, tracking the last
  height and speed it was sent. It proves that every path's commands make
  exactly these motions, from any previous state:
  - a travel to the start of the path;
  - then, for each segment, travel motions for moves and drawing motions for
    lines, curve samples and closes taken as lines.
- **Example**: one document worked out to its full command list. The
  document is a group with `translate(5,5)` holding the path `M0,0 L10,0`.

The code starts each path at the *start* of its first segment. When that
segment is a Move, the travel block is emitted a second time by the Move's own
branch. The worked example therefore contains the travel to (5, 5) twice.
That differs from a reading in which each path has a single travel. The model
follows the code.

The path parser (`parse_path` from the `svg.path` library) is not part of
this model. It is a parameter `PathData -> Option<seq<Segment>>`, where
`None` stands for the exception that ends the run.

Whether `Close` counts as a `Line` depends on the library version, because
in some versions `Close` is a subclass of `Line`. It is therefore a
parameter, `closeIsLine`.

## Model

| member | source | states |
|---|---|---|
| Affine.ApplyIdentity | gcode_generator.py:46 | the default matrix `(1,0,0,1,0,0)` leaves every point where it is |
| Affine.ApplyTranslation | gcode_generator.py:56-58 | a translate matrix `(1,0,0,1,tx,ty)` shifts every point by `(tx, ty)` |
| Affine.ApplyCompose | gcode_generator.py:63-72 | the matrix compose builds maps a point as the child matrix first and then the parent |
| Affine.ApplyComposeX | gcode_generator.py:65-72 | the x row of that statement |
| Affine.ApplyComposeY | gcode_generator.py:65-72 | the y row of that statement |
| Affine.ApplyComposeAll | gcode_generator.py:63-72 | the same statement for every point at once |
| Affine.ApplyDeterminesMatrix | gcode_generator.py:63-72 | two coefficient tuples that move every point alike are equal, so compose is determined by the map it stands for |
| Affine.ComposeIdentityLeft | gcode_generator.py:63-72 | composing under the default matrix gives the child matrix back |
| Affine.ComposeIdentityRight | gcode_generator.py:63-72 | composing with the identity as child gives the parent back |
| Affine.ComposeAssociative | gcode_generator.py:63-72 | nested groups compose independently of grouping: `(p*q)*r == p*(q*r)` |
| Affine.ComposeNotCommutative | gcode_generator.py:63-72 | the order of parent and child matters: a translation and a scaling give different products in the two orders |
| Bezier.CubicPoint | gcode_generator.py:12-13 | the cubic formula is the start point at t = 0 and the end point at t = 1 |
| Bezier.QuadraticPoint | gcode_generator.py:20-21 | the quadratic formula is the start point at t = 0 and the end point at t = 1 |
| Bezier.SampleCount | gcode_generator.py:10-11 | the loop visits at least one parameter, t = 0 |
| Bezier.SampleCountBound | gcode_generator.py:11 | `k*step <= 1` exactly when k is below the number of samples: the loop guard's iff |
| Bezier.Parameters | gcode_generator.py:10-15 | the visited parameters are `k*step` for each k, all in [0, 1], starting at 0, and one more step passes 1 |
| Bezier.ParametersReachOne | gcode_generator.py:9-15 | when the step is 1/n the last parameter is exactly 1 |
| Bezier.CubicSamples | gcode_generator.py:9-15 | one cubic point per parameter, in order, the first being the start point |
| Bezier.QuadraticSamples | gcode_generator.py:17-23 | one quadratic point per parameter, in order, the first being the start point |
| Bezier.SampleCurve | gcode_generator.py:10-15 | the while loop yields exactly the curve's points at the parameters, in order |
| Bezier.CubicBezier | gcode_generator.py:9-15 | cubic_bezier, run to exhaustion, yields the cubic samples |
| Bezier.QuadraticBezier | gcode_generator.py:17-23 | quadratic_bezier, run to exhaustion, yields the quadratic samples |
| Floating.RoundToEven | gcode_generator.py:15 | the rounding of `t += step`: the integer it returns lies within one half of its argument |
| Floating.DoubleStepIsNearest | gcode_generator.py:9 | the double that 0.05 denotes is the nearest one, slightly above 0.05 |
| Floating.DoubleTimesStep | gcode_generator.py:15 | each tabulated t is the rounded sum of the previous t and the step |
| Floating.DoubleTimesBounds | gcode_generator.py:11 | the first twenty values of t pass the guard `t <= 1`, and the twenty-first is above 1 |
| Floating.SampleCurveDouble | gcode_generator.py:9-15 | in doubles the loop yields exactly twenty points, at the twenty tabulated values of t |
| Floating.DoubleLoopMissesEnd | gcode_generator.py:9-15 | the last double sample of a straight cubic from (0,0) to (3,0) is not its end point |
| Floating.DoubleCubicBlock | gcode_generator.py:107-113 | with the double loop's samples a cubic's block has 22 commands, and its last G1 goes to the sample at the twentieth t, not to t = 1 |
| Device.MapPoint | gcode_generator.py:38-43 | the map as written is the affine map `(a, b*a, c, b*c+d, e, b*e+f)`, then the optional flip `y -> height - y` |
| Device.Transform | gcode_generator.py:38-43 | transform, with x and then y overwritten in turn, computes that map |
| Device.MapPointX | gcode_generator.py:39 | the x coordinate is always the textbook one |
| Device.MapPointTextbookIff | gcode_generator.py:39-40 | the map as written agrees with the textbook map exactly when `b = 0` or the point's x is unchanged |
| Device.MapPointNoShear | gcode_generator.py:39-40 | without the b coefficient (translations, scalings) the map is the textbook one |
| Device.QuarterTurnMisplaced | gcode_generator.py:39-40 | a quarter turn sends (1, 0) to (0, 1), but transform sends it to (0, 0) |
| Device.MapPointInverted | gcode_generator.py:41-42 | with invert_y the point is the unflipped one with y replaced by height - y |
| Document.LocalMatrix | gcode_generator.py:52-61 | an absent or empty attribute gives no matrix; a matched matrix(...) wins; otherwise a matched translate(...) gives its translation; no match gives none |
| Document.GroupMatrix | gcode_generator.py:62-72 | when the group's attribute gives no matrix, its children get the incoming matrix |
| Document.GroupSelection | gcode_generator.py:52-72 | the group's matrix, case by case: incoming, incoming composed with the matrix(...), or incoming composed with the translation |
| Document.GroupMatrixApply | gcode_generator.py:62-72 | under a group transform, a point goes through the group's matrix first and then the incoming one |
| Document.IdentityAttributeIsTransparent | gcode_generator.py:62-72 | a group whose attribute stands for the identity is walked as if it had none |
| Document.GetPaths | gcode_generator.py:45-78 | the method, with its `+=` loops, returns the walk's records |
| Document.TagKindsExclusive | gcode_generator.py:48-75 | a tag ends with at most one of `}svg`, `}g`, `}path`, so the three branches never compete |
| Document.ChildPathsConcat | gcode_generator.py:49-50 | the children's records are the in-order concatenation of each child's walk |
| Document.ChildPathsAppend | gcode_generator.py:73-74 | the walk of a split list of siblings is the walk of the first part followed by the walk of the second |
| Document.SvgPassesMatrix | gcode_generator.py:48-50 | an svg element walks its children with the matrix it received |
| Document.PathYieldsOne | gcode_generator.py:75-76 | a path element yields exactly its own `(d, matrix)` record, and its children are never visited |
| Document.OtherYieldsNothing | gcode_generator.py:47-78 | any other element yields nothing and is not descended into |
| Document.GroupMatrixUnder | gcode_generator.py:62-72 | a group's matrix over an incoming `p*m` is `p` times its matrix over `m` |
| Document.PathsUnder | gcode_generator.py:45-78 | walking under `p*m` gives the records of walking under `m`, each with `p` composed in front |
| Document.ChildPathsUnder | gcode_generator.py:73-74 | the same for a list of children |
| Document.DataIndependentOfMatrix | gcode_generator.py:45-78 | which paths are found, and in which order, does not depend on the incoming matrix |
| Document.ChildDataIndependentOfMatrix | gcode_generator.py:73-74 | the same for a list of children |
| Document.UntransformedKeepsMatrix | gcode_generator.py:45-78 | when no group the walk enters (through svg and g elements only) contributes a matrix, every record carries the incoming matrix; groups under other elements such as defs are not constrained |
| Document.ChildUntransformedKeepsMatrix | gcode_generator.py:73-74 | the same for a list of children, each meeting that condition |
| Emitter.ParseAllFails | gcode_generator.py:87-88 | one path that fails to parse fails the whole run |
| Emitter.Effect | gcode_generator.py:80-122 | the method with its loops over paths and segments returns the command list of the document, or nothing when a path fails to parse |
| Emitter.EmitPath | gcode_generator.py:89-119 | the loop over one path's segments, with `last` starting at None, appends that path's block |
| Emitter.EmitTravel | gcode_generator.py:91-95 | `G0 Z{travel_z}`, `M220 S100` and a G1 to the transformed point are appended |
| Emitter.EmitWorkMode | gcode_generator.py:103-104 | `G0 Z{print_z - depth_z}` and `M220 S{print_speed}` are appended |
| Emitter.EmitLineTo | gcode_generator.py:102-106 | a line appends the work mode and a G1 to its transformed end |
| Emitter.EmitCubic | gcode_generator.py:107-113 | a cubic appends the work mode and a G1 per transformed sample |
| Emitter.EmitQuadratic | gcode_generator.py:114-119 | a quadratic appends the work mode and a G1 per transformed sample |
| Emitter.EmitSegment | gcode_generator.py:96-119 | the isinstance branches of one segment append that segment's block |
| Emitter.EmitMoves | gcode_generator.py:110-113 | the inner loop appends a G1 per transformed sample, in order |
| Emitter.PathCommandsNext | gcode_generator.py:89-119 | one pass of the segment loop extends the path's block by that segment's commands, with the travel only for the first segment |
| EmitterFacts.LogFrame | gcode_generator.py:80-122 | every list opens with the four setup commands and ends with `G0 Z{travel_z}` |
| EmitterFacts.EmptyDocument | gcode_generator.py:80-122 | a document without paths yields exactly the setup and the park |
| EmitterFacts.SegmentsCommandsAppend | gcode_generator.py:90-119 | the segments' blocks of a split path are the blocks of the two parts |
| EmitterFacts.BodyAppend | gcode_generator.py:87-119 | the paths' blocks of a split job list are the blocks of the two parts |
| EmitterFacts.EmptyPath | gcode_generator.py:89-95 | a path without segments adds nothing, not even a travel |
| EmitterFacts.PathCommandsUnfold | gcode_generator.py:90-119 | a path's block is the travel to the first segment's start, then that segment's block, then the rest |
| EmitterFacts.PathStart | gcode_generator.py:91-95 | every non-empty path opens with travel height, full speed and a G1 to the start of its first segment |
| EmitterFacts.MoveFirstTravelsTwice | gcode_generator.py:91-101 | a path that opens with a Move repeats the travel: to the Move's start and then to its end |
| EmitterFacts.DefaultSampleCount | gcode_generator.py:9-11 | with step 0.05 the exact-real loop gives 21 samples |
| EmitterFacts.CurvesReachTheirEnd | gcode_generator.py:9-23 | with step 0.05 the last exact-real sample of each curve is its end point |
| EmitterFacts.SegmentCommandsLength | gcode_generator.py:97-119 | each kind of segment adds 3 commands for moves and lines, 23 for curves, 3 or 0 for a close, 0 for other kinds |
| EmitterFacts.SegmentEndsAtEnd | gcode_generator.py:97-119 | the block of every drawn or travelled segment ends with a G1 to the segment's transformed end |
| EmitterFacts.CurveBlockAt | gcode_generator.py:107-113 | a cubic's block is the work mode followed by its k-th sample at position 2 + k |
| EmitterFacts.QuadraticBlockAt | gcode_generator.py:114-119 | a quadratic's block is the work mode followed by its k-th sample at position 2 + k |
| EmitterFacts.ParseAllSome | gcode_generator.py:87-88 | a successful run has one job per record, each the parse of that record's data with its matrix |
| EmitterFacts.ParseAllFailure | gcode_generator.py:87-88 | a failed run points at a record whose data fails to parse |
| EmitterFacts.ParseAllNoneIff | gcode_generator.py:87-88 | parsing all records fails exactly when some record fails to parse |
| EmitterFacts.OutputNoneWhenParseFails | gcode_generator.py:87-88 | effect produces nothing exactly when parsing the walk's records fails |
| EmitterFacts.OutputNoneIff | gcode_generator.py:87-129 | effect produces nothing exactly when one of the paths the walk finds fails to parse |
| Machine.FinalAppend | gcode_generator.py:81-122 | the printer state after two lists is the state after the second, taken from the state after the first |
| Machine.TraceAppend | gcode_generator.py:81-122 | the motions of two lists in turn are the motions of their concatenation |
| Machine.MovesTrace | gcode_generator.py:110-113 | at work height a curve's G1s make exactly its drawing motions, and leave the state as it was |
| Machine.ModeTrace | gcode_generator.py:103-106 | height and speed commands before G1s fix the state those G1s move in |
| Machine.TravelTrace | gcode_generator.py:92-95 | a travel block makes one motion at travel height and full speed, from any state |
| Machine.LineTrace | gcode_generator.py:102-106 | a line block makes one drawing motion to the line's end, from any state |
| Machine.CurveTrace | gcode_generator.py:107-119 | a curve block draws its samples in order, from any state |
| Machine.SegmentTrace | gcode_generator.py:96-119 | each segment's block makes that segment's reference motions, from any state |
| Machine.SegmentsTrace | gcode_generator.py:90-119 | the segments' blocks make the segments' reference motions in order |
| Machine.PathTrace | gcode_generator.py:89-119 | a path's block makes a travel to its start and then its segments' motions, whatever the previous path left |
| Machine.BodyTrace | gcode_generator.py:87-119 | all paths' blocks make the reference motions of each path, in order |
| Machine.PreambleTrace | gcode_generator.py:81-85 | the setup commands neither move the tool nor change its height or speed |
| Machine.LogTrace | gcode_generator.py:80-122 | the whole list makes the paths' reference motions from any initial state and leaves the tool at travel height |
| Machine.SegmentsMotionsTwoModes | gcode_generator.py:96-119 | every motion of a path is either a travel (travel height, speed 100) or a drawing (work height, print speed) |
| Example.DrawingPaths | gcode_generator.py:45-78 | the walk of the worked document finds the one path under the translation by (5, 5) |
| Example.MoveLinePath | gcode_generator.py:89-106 | a path "move to p, line to q" gives the travel to p twice, then the line block |
| Example.DrawingPathCommands | gcode_generator.py:89-106 | the worked path gives two travels to (5, 5) and a G1 to (15, 5) at height 2 and speed 40 |
| Example.SinglePathOutput | gcode_generator.py:80-122 | a document with one parsable path gives the setup, that path's block and the park |
| Example.DrawingLog | gcode_generator.py:80-122 | effect on the worked document gives the setup, the path's block and the park |
| Example.DrawingOutput | gcode_generator.py:80-122 | effect on the worked document gives exactly the fourteen expected commands |

## Left out

- The inkex plug-in lifecycle and option parsing (lines 25-36, 131-133) are not modelled. The options are a datatype; the `output` file name is not part of it.
- Writing the commands as text and writing the file (lines 124-129) are not modelled. Commands are values, with the G-code text of each constructor given beside it.
- `eprint` and the `minidom` import (lines 3, 6-7) are unused by the core.
- `parse_path` and the `svg.path` segment classes are not part of this model. The parser is a parameter. A parse error is `None`, and then no file is written.
- Whether `Close` is a `Line` is left to the `closeIsLine` parameter. Arcs and other segment kinds fall through every branch, as `Other`.
- The regular expressions and `float()` on their captures (lines 53-61) are not modelled. A group's attribute carries its text and the numbers each pattern's first match gives, or `None`. A match whose captures `float()` rejects would raise an error; the model assumes the numbers are well formed.
- Document.Paths: every node has a string tag. In lxml, a comment or processing instruction in the tree has a non-string `tag`, and the `endswith` test at line 48 then raises an error that ends the run before any file is written. The model has no such node kind, so it does not capture that failure.
- A missing `d` attribute is passed to the parser as `None`, as in the code. What the library does with it is the parser parameter's business.
- Device.MapPoint: the coordinates are exact reals, not doubles. The same holds for the curve samples in Bezier and Emitter. Only module Floating models the rounding of the parameter loop. The model does not round the Bernstein sums or the matrix products.
- EmitterFacts.SegmentCommandsLength: counts curve blocks of the exact-real sampler (23 commands). With the source's double loop a curve block has 22 (Floating.DoubleCubicBlock).
- EmitterFacts.SegmentEndsAtEnd: holds for curves only with the exact-real sampler. With the source's double loop the last G1 of a curve goes to the sample at t just above 0.95, not to the sample at t = 1 (Floating.DoubleCubicBlock).
- EmitterFacts.CurveBlockAt: places the 21 exact-real samples of a cubic. The source's double loop yields 20, so position 2 + 20 does not exist there.
- EmitterFacts.QuadraticBlockAt: places the 21 exact-real samples of a quadratic, in the same way; the source's double loop yields 20.
- EmitterFacts.CurvesReachTheirEnd: this states the exact-real loop, which reaches t = 1. With doubles the loop stops one sample earlier; see Floating and "## Findings".
- The generators are lazy in the source. The model computes their whole output at once, which is what `effect` consumes.

## Findings

| source | as written | input that shows it | evidently intended | confidence | as-written member | corrected member |
|---|---|---|---|---|---|---|
| gcode_generator.py:9-23 | `t = 0; while t <= 1: …; t += step` with `step=0.05` accumulates t in doubles | any curve, e.g. the cubic (0,0), (1,0), (2,0), (3,0): the twentieth t is 0.9500000000000003, the next one 1.0000000000000002 fails `t <= 1`, so only 20 samples are produced, and the last is at x ≈ 2.85, not the end point (3, 0) | 21 samples at t = k/20, the last exactly the curve's end point | high; not executed | Floating.SampleCurveDouble, Floating.DoubleLoopMissesEnd | Bezier.SampleCurve, EmitterFacts.CurvesReachTheirEnd |
