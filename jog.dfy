/** The jog panel of `MachinekitJog.py`: which axis and direction a jog
    button letter names, and the command sequences the panel hands to the
    command service for step, continuous, zeroing, stop, set-position and
    bounding-box scan jogs.

    Positions, velocities and distances are exact reals; the panel's unit
    conversion and the `%g` rendering of a widget value happen outside the
    model. A jog builder returns the call it would make, or `None` when it
    sends nothing. */
module Jog {
  import opened Util
  import opened Commands

  /** `machinekit.AxesForward` and `machinekit.AxesBackward`: the forward
      (uppercase) and backward (lowercase) axis letters of the nine axes
      X Y Z A B C U V W; the position of a letter is the axis index. */
  const AxesForward: string := "XYZABCUVW"
  const AxesBackward: string := "xyzabcuvw"

  /** `Jog.JogContinuous`, the first entry of the distance list. */
  const JogContinuous: string := "Continuous"

  /** `Tolerance`: two coordinates closer than this need no jog. */
  const Tolerance: real := 0.01

  predicate IsAxisLetter(c: char) {
    c in AxesForward || c in AxesBackward
  }

  /** The two letter lists have one letter per axis, none repeated; the
      forward letters are uppercase and the backward ones lowercase, so no
      letter is in both. */
  lemma AxisLetterFacts()
    ensures |AxesForward| == 9 && |AxesBackward| == 9
    ensures forall k :: 0 <= k < 9 ==> 'A' <= AxesForward[k] <= 'Z'
    ensures forall k :: 0 <= k < 9 ==> 'a' <= AxesBackward[k] <= 'z'
    ensures Distinct(AxesForward) && Distinct(AxesBackward)
    ensures forall c :: c in AxesForward ==> c !in AxesBackward
  {
    forall c | c in AxesForward
      ensures c !in AxesBackward
    {
      var k :| 0 <= k < 9 && AxesForward[k] == c;
    }
  }

  /** `getJogIndexAndVelocity(axis)`: the position of the letter in its
      list; a backward letter wins over a forward one (the second test
      overwrites the first). */
  function IndexAndVelocity(axis: char, vmax: real): (nat, real)
    requires IsAxisLetter(axis)
  {
    match Find(AxesBackward, axis)
    case Some(i) => (i, 0.0 - vmax)
    case None =>
      FindIndexOf(AxesForward, axis);
      FindIndexOf(AxesBackward, axis);
      (Find(AxesForward, axis).value, vmax)
  }

  /** An uppercase letter jogs its axis forward at the maximal velocity, its
      lowercase counterpart the same axis backward. */
  lemma IndexAndVelocityOfLetters(k: nat, vmax: real)
    requires k < |AxesForward|
    ensures IndexAndVelocity(AxesForward[k], vmax) == (k, vmax)
    ensures IndexAndVelocity(AxesBackward[k], vmax) == (k, 0.0 - vmax)
  {
    ForwardLetter(k, vmax);
    BackwardLetter(k, vmax);
  }

  lemma ForwardLetter(k: nat, vmax: real)
    requires k < |AxesForward|
    ensures IndexAndVelocity(AxesForward[k], vmax) == (k, vmax)
  {
    AxisLetterFacts();
    IndexOfDistinct(AxesForward, k);
    FindIndexOf(AxesForward, AxesForward[k]);
    FindIndexOf(AxesBackward, AxesForward[k]);
  }

  lemma BackwardLetter(k: nat, vmax: real)
    requires k < |AxesBackward|
    ensures IndexAndVelocity(AxesBackward[k], vmax) == (k, 0.0 - vmax)
  {
    AxisLetterFacts();
    IndexOfDistinct(AxesBackward, k);
    FindIndexOf(AxesBackward, AxesBackward[k]);
  }

  /** Every jog letter names one of the nine axes. */
  lemma LetterIndexBound(c: char, vmax: real)
    requires IsAxisLetter(c)
    ensures IndexAndVelocity(c, vmax).0 < |AxesForward| == 9
    ensures c in AxesForward ==> IndexAndVelocity(c, vmax) == (IndexOf(AxesForward, c), vmax)
    ensures c in AxesBackward ==> IndexAndVelocity(c, vmax) == (IndexOf(AxesBackward, c), 0.0 - vmax)
  {
    AxisLetterFacts();
    FindIndexOf(AxesForward, c);
    FindIndexOf(AxesBackward, c);
  }

  predicate AxisLetters(axes: string) {
    forall k :: 0 <= k < |axes| ==> IsAxisLetter(axes[k])
  }

  /** One axis of a step jog: `MKCommandAxisJog(index, velocity, distance)`. */
  function StepJog(c: char, vmax: real, distance: real): Cmd
    requires IsAxisLetter(c)
  {
    var iv := IndexAndVelocity(c, vmax);
    AxisJog(iv.0, iv.1, Some(distance))
  }

  /** One axis of a continuous jog: `MKCommandAxisJog(index, velocity)`. */
  function StartJog(c: char, vmax: real): Cmd
    requires IsAxisLetter(c)
  {
    var iv := IndexAndVelocity(c, vmax);
    AxisJog(iv.0, iv.1, None)
  }

  /** The end of a continuous jog of one axis: `MKCommandAxisAbort(index)`. */
  function EndJog(c: char, vmax: real): Cmd
    requires IsAxisLetter(c)
  {
    AxisAbort(IndexAndVelocity(c, vmax).0)
  }

  function StepJogs(axes: string, vmax: real, distance: real): Batch
    requires AxisLetters(axes)
  {
    seq(|axes|, k requires 0 <= k < |axes| => StepJog(axes[k], vmax, distance))
  }

  function StartJogs(axes: string, vmax: real): Batch
    requires AxisLetters(axes)
  {
    seq(|axes|, k requires 0 <= k < |axes| => StartJog(axes[k], vmax))
  }

  function EndJogs(axes: string, vmax: real): Batch
    requires AxisLetters(axes)
  {
    seq(|axes|, k requires 0 <= k < |axes| => EndJog(axes[k], vmax))
  }

  /** Releasing a continuous-jog button aborts exactly the axes pressing it
      started, in the same order, and none is given a distance. */
  lemma EndAbortsBegun(axes: string, vmax: real)
    requires AxisLetters(axes)
    ensures |EndJogs(axes, vmax)| == |StartJogs(axes, vmax)| == |axes|
    ensures forall k :: 0 <= k < |axes| ==>
      && StartJogs(axes, vmax)[k].AxisJog? && StartJogs(axes, vmax)[k].distance.None?
      && EndJogs(axes, vmax)[k] == AxisAbort(StartJogs(axes, vmax)[k].index)
  {
  }

  /** A step jog moves every requested axis by the selected distance, in the
      order of the letters, forward for uppercase and backward for
      lowercase letters. */
  lemma StepJogsMeaning(axes: string, vmax: real, distance: real)
    requires AxisLetters(axes)
    ensures |StepJogs(axes, vmax, distance)| == |axes|
    ensures forall k, j :: 0 <= k < |axes| && 0 <= j < |AxesForward| && axes[k] == AxesForward[j] ==>
      StepJogs(axes, vmax, distance)[k] == AxisJog(j, vmax, Some(distance))
    ensures forall k, j :: 0 <= k < |axes| && 0 <= j < |AxesBackward| && axes[k] == AxesBackward[j] ==>
      StepJogs(axes, vmax, distance)[k] == AxisJog(j, 0.0 - vmax, Some(distance))
  {
    forall k, j | 0 <= k < |axes| && 0 <= j < |AxesForward| && axes[k] == AxesForward[j]
      ensures StepJogs(axes, vmax, distance)[k] == AxisJog(j, vmax, Some(distance))
    {
      StepJogForward(j, vmax, distance);
    }
    forall k, j | 0 <= k < |axes| && 0 <= j < |AxesBackward| && axes[k] == AxesBackward[j]
      ensures StepJogs(axes, vmax, distance)[k] == AxisJog(j, 0.0 - vmax, Some(distance))
    {
      StepJogBackward(j, vmax, distance);
    }
  }

  lemma StepJogForward(j: nat, vmax: real, distance: real)
    requires j < |AxesForward|
    ensures StepJog(AxesForward[j], vmax, distance) == AxisJog(j, vmax, Some(distance))
  {
    ForwardLetter(j, vmax);
  }

  lemma StepJogBackward(j: nat, vmax: real, distance: real)
    requires j < |AxesBackward|
    ensures StepJog(AxesBackward[j], vmax, distance) == AxisJog(j, 0.0 - vmax, Some(distance))
  {
    BackwardLetter(j, vmax);
  }

  /** What every jog builder ends with: the manual-mode commands one per
      batch, then the jog batch, sent only when the jog batch is not empty. */
  function JogSequence(manual: seq<Cmd>, jog: Batch): (r: Option<Call>)
    ensures r.Some? <==> jog != []
    ensures r.Some? ==> r.value.SendCommandSequence? && |r.value.batches| == |manual| + 1
                        && r.value.batches[|manual|] == jog
                        && r.value.batches[..|manual|] == Singletons(manual)
  {
    if jog == [] then None else Some(SendCommandSequence(Singletons(manual) + [jog]))
  }

  /** The display position of the machine (actual position less the g5x
      offset), per axis. */
  datatype Position = Position(x: real, y: real, z: real)

  /** `displayPos(axis)` */
  function DisplayPos(p: Position, axis: char): real {
    if axis == 'x' || axis == 'X' then p.x
    else if axis == 'y' || axis == 'Y' then p.y
    else p.z
  }

  /** The axes `jogAxesZero` considers: x and y for the `-` selector, z for
      any other. */
  function ZeroAxes(selector: string): string
    requires |selector| > 0
  {
    if selector[0] == '-' then "xy" else "z"
  }

  /** The jog batch of `jogAxesZero`: every considered axis not already at
      zero is jogged by its display position. */
  function ZeroJogs(axes: string, p: Position, vmax: real): Batch
    requires AxisLetters(axes)
  {
    if axes == [] then []
    else
      var c := axes[|axes| - 1];
      var d := DisplayPos(p, c);
      ZeroJogs(axes[..|axes| - 1], p, vmax) + (if d != 0.0 then [StepJog(c, vmax, d)] else [])
  }

  /** The zero batch of one axis jogs it only when it is away from zero. */
  lemma ZeroJogsOne(a: char, p: Position, vmax: real)
    requires IsAxisLetter(a)
    ensures ZeroJogs([a], p, vmax) == (if DisplayPos(p, a) != 0.0 then [StepJog(a, vmax, DisplayPos(p, a))] else [])
  {
    assert [a][..0] == [];
  }

  /** The zero batch of two axes jogs the first, then the second, each only
      when it is away from zero. */
  lemma ZeroJogsTwo(a: char, b: char, p: Position, vmax: real)
    requires IsAxisLetter(a) && IsAxisLetter(b)
    ensures ZeroJogs([a, b], p, vmax) ==
      ZeroJogs([a], p, vmax) + (if DisplayPos(p, b) != 0.0 then [StepJog(b, vmax, DisplayPos(p, b))] else [])
  {
    assert [a, b][..1] == [a];
  }

  /** The lowercase x, y and z jog axes 0, 1 and 2 backward. */
  lemma BackwardXYZ(vmax: real, d: real)
    ensures StepJog('x', vmax, d) == AxisJog(0, 0.0 - vmax, Some(d))
    ensures StepJog('y', vmax, d) == AxisJog(1, 0.0 - vmax, Some(d))
    ensures StepJog('z', vmax, d) == AxisJog(2, 0.0 - vmax, Some(d))
  {
    assert AxesBackward[0] == 'x' && AxesBackward[1] == 'y' && AxesBackward[2] == 'z';
    StepJogBackward(0, vmax, d);
    StepJogBackward(1, vmax, d);
    StepJogBackward(2, vmax, d);
  }

  /** Zeroing x and y jogs x (axis 0) and then y (axis 1), backward, each by
      its display position, leaving out an axis already at zero. */
  lemma ZeroJogsXY(p: Position, vmax: real)
    ensures ZeroJogs("xy", p, vmax) ==
      (if p.x != 0.0 then [AxisJog(0, 0.0 - vmax, Some(p.x))] else [])
      + (if p.y != 0.0 then [AxisJog(1, 0.0 - vmax, Some(p.y))] else [])
  {
    BackwardXYZ(vmax, p.x);
    BackwardXYZ(vmax, p.y);
    ZeroJogsOne('x', p, vmax);
    ZeroJogsTwo('x', 'y', p, vmax);
  }

  /** Zeroing z jogs axis 2 backward by its display position, and nothing
      when it is already at zero. */
  lemma ZeroJogsZ(p: Position, vmax: real)
    ensures ZeroJogs("z", p, vmax) == (if p.z != 0.0 then [AxisJog(2, 0.0 - vmax, Some(p.z))] else [])
  {
    BackwardXYZ(vmax, p.z);
    ZeroJogsOne('z', p, vmax);
  }

  /** `jogAxesStop()`: the running sequence is aborted first, then a new one
      puts the machine in manual mode and aborts all three axes in one
      batch. */
  function JogAxesStop(manual: seq<Cmd>): (r: seq<Call>)
    ensures |r| == 2 && r[0] == AbortCommandSequence && r[1].SendCommandSequence?
    ensures var b := r[1].batches;
      && |b| == |manual| + 1 && b[..|manual|] == Singletons(manual)
      && b[|manual|] == [AxisAbort(0), AxisAbort(1), AxisAbort(2)]
  {
    var sequence := Singletons(manual) + [seq(3, i => AxisAbort(i))];
    [AbortCommandSequence, SendCommandSequence(sequence)]
  }

  /** The text `%g` gives the value of an axis in `setPosition`: `0` when
      there is no widget. */
  function PositionValue(value: Option<string>): string {
    if value.Some? then value.value else "0"
  }

  /** The code of `setPosition`: `G10 L20 P0` followed by one word per
      letter, the letter and its value, each word after a space. */
  function PositionCode(letters: string, value: Option<string>): string {
    if letters == [] then "G10 L20 P0"
    else PositionCode(letters[..|letters| - 1], value) + " " + [letters[|letters| - 1]] + PositionValue(value)
  }

  /** The words `G10`, `L20` and `P0` joined by spaces. */
  lemma JoinOfPrefix()
    ensures Join(["G10", "L20", "P0"], " ") == PositionCode("", None)
  {
    assert ["G10", "L20", "P0"][1..] == ["L20", "P0"] && ["L20", "P0"][1..] == ["P0"];
  }

  /** Setting every axis to zero. */
  lemma PositionCodeAllZero()
    ensures PositionCode("xyz", None) == "G10 L20 P0 x0 y0 z0"
  {
    assert "xyz"[..2] == "xy" && "xy"[..1] == "x" && "x"[..0] == "";
  }

  /** `isRoughly(a, b, tol)` */
  predicate Roughly(a: real, b: real, tol: real) {
    (if a >= b then a - b else b - a) <= tol
  }

  datatype Point = Point(x: real, y: real)

  /** `pointsCoincide(a, b)` for points in the plane z = 0, with the
      geometry library's own tolerance `tol`. */
  predicate Coincide(a: Point, b: Point, tol: real) {
    Roughly(a.x, b.x, tol) && Roughly(a.y, b.y, tol)
  }

  /** The jogs of `_jogXYCmdsFromTo(start, end)`: x, then y, each only when
      the coordinates differ by more than the tolerance. */
  function XYJogs(start: Point, end: Point, vmax: real): Batch {
    (if !Roughly(start.x, end.x, Tolerance) then [StepJog('x', vmax, start.x - end.x)] else [])
    + (if !Roughly(start.y, end.y, Tolerance) then [StepJog('y', vmax, start.y - end.y)] else [])
  }

  /** Moving between two points jogs axis 0 and then axis 1 backward by the
      difference of the coordinates, and nothing when they are roughly the
      same point. */
  lemma XYJogsMeaning(start: Point, end: Point, vmax: real)
    ensures |XYJogs(start, end, vmax)| <= 2
    ensures XYJogs(start, end, vmax) == [] <==> Coincide(start, end, Tolerance)
    ensures !Roughly(start.x, end.x, Tolerance) ==>
      XYJogs(start, end, vmax)[0] == AxisJog(0, 0.0 - vmax, Some(start.x - end.x))
    ensures !Roughly(start.y, end.y, Tolerance) ==>
      XYJogs(start, end, vmax)[|XYJogs(start, end, vmax)| - 1] == AxisJog(1, 0.0 - vmax, Some(start.y - end.y))
  {
    BackwardXYZ(vmax, start.x - end.x);
    BackwardXYZ(vmax, start.y - end.y);
  }

  /** `job.Path.BoundBox` */
  datatype BoundBox = BoundBox(xMin: real, yMin: real, zMin: real, xMax: real, yMax: real, zMax: real)

  /** `BoundBox.isValid()` */
  predicate BoxValid(bb: BoundBox) {
    bb.xMin <= bb.xMax && bb.yMin <= bb.yMax && bb.zMin <= bb.zMax
  }

  /** The corners of the box going round forward (counter-clockwise from
      the lower left) or backward (clockwise from the lower left). */
  function Corners(bb: BoundBox, forward: bool): (r: seq<Point>)
    ensures |r| == 4 && r[0] == Point(bb.xMin, bb.yMin)
  {
    if forward then
      [Point(bb.xMin, bb.yMin), Point(bb.xMax, bb.yMin), Point(bb.xMax, bb.yMax), Point(bb.xMin, bb.yMax)]
    else
      [Point(bb.xMin, bb.yMin), Point(bb.xMin, bb.yMax), Point(bb.xMax, bb.yMax), Point(bb.xMax, bb.yMin)]
  }

  /** The square of `distanceToPoint`; the square root is monotone, so the
      nearest corner is the same. */
  function SquaredDistance(a: Point, b: Point): real {
    (a.x - b.x) * (a.x - b.x) + (a.y - b.y) * (a.y - b.y)
  }

  /** `min(d)` */
  function Min(d: seq<real>): (r: real)
    requires |d| > 0
    ensures r in d && forall k :: 0 <= k < |d| ==> r <= d[k]
  {
    if |d| == 1 then d[0]
    else
      var m := Min(d[1..]);
      assert forall k :: 1 <= k < |d| ==> d[k] == d[1..][k - 1];
      if d[0] <= m then d[0] else m
  }

  /** `d.index(min(d))`: the first position of a least element. */
  function ArgMin(d: seq<real>): (r: nat)
    requires |d| > 0
    ensures r < |d|
    ensures forall k :: 0 <= k < |d| ==> d[r] <= d[k]
    ensures forall k :: 0 <= k < r ==> d[r] < d[k]
  {
    var m := Min(d);
    var r := IndexOf(d, m);
    assert forall k :: 0 <= k < r ==> d[k] != m by {
      forall k | 0 <= k < r ensures d[k] != m {
        assert d[k] == d[..r][k];
      }
    }
    r
  }

  /** The distance from `begin` to each point, in point order. */
  function Distances(begin: Point, pts: seq<Point>): (r: seq<real>)
    ensures |r| == |pts|
  {
    seq(|pts|, k requires 0 <= k < |pts| => SquaredDistance(begin, pts[k]))
  }

  /** `pts[rot:] + pts[:rot]`, closed by appending its head. */
  function ClosedRotation(pts: seq<Point>, rot: nat): (r: seq<Point>)
    requires rot < |pts|
    ensures |r| == |pts| + 1 && r[0] == r[|pts|] == pts[rot]
    ensures forall k :: 0 <= k < |pts| - rot ==> r[k] == pts[rot + k]
    ensures forall k :: |pts| - rot <= k < |pts| ==> r[k] == pts[k - (|pts| - rot)]
  {
    var turned := pts[rot..] + pts[..rot];
    turned + [turned[0]]
  }

  /** The scan path: the corners rotated to start at the first nearest one,
      closed by returning to it. */
  function ScanPath(begin: Point, bb: BoundBox, forward: bool): (r: seq<Point>)
    ensures |r| == 5
  {
    var pts := Corners(bb, forward);
    ClosedRotation(pts, ArgMin(Distances(begin, pts)))
  }

  /** Rotating to the first least distance starts at a point no farther
      than any other, with every point before it strictly farther. */
  lemma RotationStartsNearest(pts: seq<Point>, d: seq<real>)
    requires |pts| == |d| > 0
    ensures var rot := ArgMin(d);
      var p := ClosedRotation(pts, rot);
      && p[0] == pts[rot]
      && (forall k :: 0 <= k < |d| ==> d[rot] <= d[k])
      && (forall k :: 0 <= k < rot ==> d[rot] < d[k])
  {
  }

  /** The scan path has five points, ends where it starts, visits the
      corners in their order round the box, and starts at a corner nearest
      to the machine, the first such in corner order. */
  lemma ScanPathShape(begin: Point, bb: BoundBox, forward: bool)
    ensures var p := ScanPath(begin, bb, forward);
      var pts := Corners(bb, forward);
      var rot := ArgMin(Distances(begin, pts));
      && p[0] == p[4]
      && (forall k :: 0 <= k < 4 ==> p[k] == if rot + k < 4 then pts[rot + k] else pts[rot + k - 4])
      && (forall k :: 0 <= k < 4 ==> SquaredDistance(begin, p[0]) <= SquaredDistance(begin, pts[k]))
      && (forall k :: 0 <= k < rot ==> SquaredDistance(begin, p[0]) < SquaredDistance(begin, pts[k]))
  {
    var pts := Corners(bb, forward);
    var d := Distances(begin, pts);
    RotationStartsNearest(pts, d);
    var rot := ArgMin(d);
    assert forall k :: 0 <= k < 4 ==> d[k] == SquaredDistance(begin, pts[k]);
    assert ScanPath(begin, bb, forward)[0] == pts[rot];
  }

  /** One jog batch per side of a path. */
  function Sides(path: seq<Point>, vmax: real): (r: seq<Batch>)
    requires |path| > 0
    ensures |r| == |path| - 1
  {
    seq(|path| - 1, k requires 0 <= k < |path| - 1 => XYJogs(path[k], path[k + 1], vmax))
  }

  /** The jog batches of `scanJob`: the way to the first corner unless the
      machine already stands on it, then one batch per side of the path. */
  function ScanBatches(begin: Point, path: seq<Point>, vmax: real, tol: real): seq<Batch>
    requires |path| > 0
  {
    (if !Coincide(begin, path[0], tol) then [XYJogs(begin, path[0], vmax)] else []) + Sides(path, vmax)
  }

  /** What `scanJob` ends in. */
  datatype ScanOutcome = NoJobUploaded | InvalidBoundBox | Scan(call: Call)

  /** `scanJob(forward)`: `box` is the bound box of the bound job's path,
      none without a job or a path. */
  function ScanPlan(forward: bool, box: Option<BoundBox>, begin: Point, vmax: real, tol: real,
                   manual: seq<Cmd>): ScanOutcome
  {
    if box.None? then NoJobUploaded
    else if !BoxValid(box.value) then InvalidBoundBox
    else
      var path := ScanPath(begin, box.value, forward);
      Scan(SendCommandSequence(Singletons(manual) + ScanBatches(begin, path, vmax, tol)))
  }

  /** A scan sends the manual-mode commands and then one batch per side of
      the box, four in all, after one more batch first when the machine
      does not stand on the first corner; it scans only a valid box. */
  lemma ScanJobShape(forward: bool, box: Option<BoundBox>, begin: Point, vmax: real, tol: real, manual: seq<Cmd>)
    ensures var r := ScanPlan(forward, box, begin, vmax, tol, manual);
      && (r.Scan? <==> box.Some? && BoxValid(box.value))
      && (r.Scan? ==>
            var path := ScanPath(begin, box.value, forward);
            var b := r.call.batches;
            var lead := if Coincide(begin, path[0], tol) then 0 else 1;
            && |b| == |manual| + lead + 4
            && b[..|manual|] == Singletons(manual)
            && (lead == 1 ==> b[|manual|] == XYJogs(begin, path[0], vmax))
            && (forall k :: 0 <= k < 4 ==> b[|manual| + lead + k] == XYJogs(path[k], path[k + 1], vmax)))
  {
    if box.Some? && BoxValid(box.value) {
      var path := ScanPath(begin, box.value, forward);
      var lead: seq<Batch> := if Coincide(begin, path[0], tol) then [] else [XYJogs(begin, path[0], vmax)];
      assert ScanBatches(begin, path, vmax, tol) == lead + Sides(path, vmax);
      BatchLayout(Singletons(manual), lead, Sides(path, vmax));
    }
  }

  /** Where the parts of a command sequence sit once they are put together. */
  lemma BatchLayout(head: seq<Batch>, lead: seq<Batch>, rest: seq<Batch>)
    ensures var b := head + (lead + rest);
      && |b| == |head| + |lead| + |rest|
      && b[..|head|] == head
      && (|lead| > 0 ==> b[|head|] == lead[0])
      && (forall k :: 0 <= k < |rest| ==> b[|head| + |lead| + k] == rest[k])
  {
    var b := head + (lead + rest);
    assert b[..|head|] == head;
  }

  /** The `Continuous` entry has no surrounding whitespace. */
  lemma ContinuousStripped()
    ensures Strip(JogContinuous) == JogContinuous
  {
    StripUnchanged(JogContinuous);
  }

  /** Mapping over a list whose first entry the map leaves alone keeps that
      entry and maps the rest. */
  lemma MapAfterFixed(f: string -> string, first: string, rest: seq<string>)
    requires f(first) == first
    ensures seq(1 + |rest|, k requires 0 <= k < 1 + |rest| => f(([first] + rest)[k]))
         == [first] + seq(|rest|, k requires 0 <= k < |rest| => f(rest[k]))
  {
  }

  /** The corner ordering of `scanJob`: the corners in the requested
      direction, rotated to start at the one nearest to `begin`, and closed
      with the first corner again. */
  method ScanCorners(begin: Point, bb: BoundBox, forward: bool) returns (pts: seq<Point>)
    ensures pts == ScanPath(begin, bb, forward)
  {
    pts := Corners(bb, forward);
    var dist := Distances(begin, pts);
    var rot := ArgMin(dist);
    pts := pts[rot..] + pts[..rot];
    pts := pts + [pts[0]];
  }

  /** The `for axis in axes` loop of `jogAxes`. */
  method StepJogBatch(axes: string, vmax: real, distance: real) returns (jog: Batch)
    requires AxisLetters(axes)
    ensures jog == StepJogs(axes, vmax, distance)
  {
    jog := [];
    for i := 0 to |axes|
      invariant |jog| == i && forall k :: 0 <= k < i ==> jog[k] == StepJog(axes[k], vmax, distance)
    {
      var iv := IndexAndVelocity(axes[i], vmax);
      jog := jog + [AxisJog(iv.0, iv.1, Some(distance))];
    }
  }

  /** The `for axis in axes` loop of `jogAxesBegin`. */
  method StartJogBatch(axes: string, vmax: real) returns (jog: Batch)
    requires AxisLetters(axes)
    ensures jog == StartJogs(axes, vmax)
  {
    jog := [];
    for i := 0 to |axes|
      invariant |jog| == i && forall k :: 0 <= k < i ==> jog[k] == StartJog(axes[k], vmax)
    {
      var iv := IndexAndVelocity(axes[i], vmax);
      jog := jog + [AxisJog(iv.0, iv.1, None)];
    }
  }

  /** The `for axis in axes` loop of `jogAxesEnd`. */
  method EndJogBatch(axes: string, vmax: real) returns (jog: Batch)
    requires AxisLetters(axes)
    ensures jog == EndJogs(axes, vmax)
  {
    jog := [];
    for i := 0 to |axes|
      invariant |jog| == i && forall k :: 0 <= k < i ==> jog[k] == EndJog(axes[k], vmax)
    {
      var iv := IndexAndVelocity(axes[i], vmax);
      jog := jog + [AxisAbort(iv.0)];
    }
  }

  /** The jog panel: the entries of the distance list, the selected row
      (-1 before there is one) and whether the list was filled. */
  class Jog {
    var items: seq<string>
    var currentRow: int
    var isSetup: bool

    constructor ()
      ensures items == [] && currentRow == -1 && !isSetup
    {
      items := [];
      currentRow := -1;
      isSetup := false;
    }

    /** `setupUI()`: the distance list gains `Continuous` and then the
        machine's increments, each stripped, and its first row is selected. */
    method SetupUI(increments: seq<string>)
      modifies this
      ensures items == old(items) + [JogContinuous] + seq(|increments|, k requires 0 <= k < |increments| => Strip(increments[k]))
      ensures currentRow == 0 && isSetup
    {
      var all := [JogContinuous] + increments;
      var added: seq<string> := [];
      for i := 0 to |all|
        invariant added == seq(i, k requires 0 <= k < i => Strip(all[k]))
      {
        added := added + [Strip(all[i])];
      }
      ContinuousStripped();
      MapAfterFixed(Strip, JogContinuous, increments);
      items := items + added;
      currentRow := 0;
      isSetup := true;
    }

    /** `jogContinuously()`: the `Continuous` row is selected. */
    predicate JogContinuously()
      reads this
    {
      currentRow == 0
    }

    /** `jogAxes(axes)`: a step jog by `distance` (the selected entry in
        machine units), only when not jogging continuously. */
    method JogAxes(axes: string, vmax: real, distance: real, manual: seq<Cmd>) returns (r: Option<Call>)
      requires AxisLetters(axes)
      ensures r.Some? <==> !JogContinuously() && axes != []
      ensures r.Some? ==> r == JogSequence(manual, StepJogs(axes, vmax, distance))
    {
      r := None;
      if !JogContinuously() {
        var jog := StepJogBatch(axes, vmax, distance);
        r := JogSequence(manual, jog);
      }
    }

    /** `jogAxesBegin(axes)`: pressing a button starts a jog without a
        distance, only when jogging continuously. */
    method JogAxesBegin(axes: string, vmax: real, manual: seq<Cmd>) returns (r: Option<Call>)
      requires AxisLetters(axes)
      ensures r.Some? <==> JogContinuously() && axes != []
      ensures r.Some? ==> r == JogSequence(manual, StartJogs(axes, vmax))
    {
      r := None;
      if JogContinuously() {
        var jog := StartJogBatch(axes, vmax);
        r := JogSequence(manual, jog);
      }
    }

    /** `jogAxesEnd(axes)`: releasing the button aborts those axes, only
        when jogging continuously. */
    method JogAxesEnd(axes: string, vmax: real, manual: seq<Cmd>) returns (r: Option<Call>)
      requires AxisLetters(axes)
      ensures r.Some? <==> JogContinuously() && axes != []
      ensures r.Some? ==> r == JogSequence(manual, EndJogs(axes, vmax))
    {
      r := None;
      if JogContinuously() {
        var jog := EndJogBatch(axes, vmax);
        r := JogSequence(manual, jog);
      }
    }

    /** `jogAxesZero(axes)`: jog the considered axes back to zero. */
    method JogAxesZero(selector: string, p: Position, vmax: real, manual: seq<Cmd>) returns (r: Option<Call>)
      requires |selector| > 0
      ensures r == JogSequence(manual, ZeroJogs(ZeroAxes(selector), p, vmax))
      ensures r.None? <==> forall k :: 0 <= k < |ZeroAxes(selector)| ==> DisplayPos(p, ZeroAxes(selector)[k]) == 0.0
    {
      var axes := ZeroAxes(selector);
      var jog: seq<Cmd> := [];
      for i := 0 to |axes|
        invariant jog == ZeroJogs(axes[..i], p, vmax)
      {
        var distance := DisplayPos(p, axes[i]);
        assert axes[..i + 1][..i] == axes[..i];
        if distance != 0.0 {
          var iv := IndexAndVelocity(axes[i], vmax);
          jog := jog + [AxisJog(iv.0, iv.1, Some(distance))];
        }
      }
      assert axes[..|axes|] == axes;
      if selector[0] == '-' { ZeroJogsXY(p, vmax); } else { ZeroJogsZ(p, vmax); }
      r := JogSequence(manual, jog);
    }

    /** `setPosition(label, widget)`: in MDI mode, execute the `G10 L20 P0`
        code setting the axes of `letters` to the value shown (`value`, the `%g`
        text of the widget's value) or to zero. */
    method SetPosition(letters: string, value: Option<string>, mdi: seq<Cmd>) returns (r: Call)
      ensures r == SendCommands(mdi + [TaskExecute(PositionCode(letters, value))])
    {
      var cmds := ["G10", "L20", "P0"];
      JoinOfPrefix();
      for i := 0 to |letters|
        invariant |cmds| >= 3
        invariant Join(cmds, " ") == PositionCode(letters[..i], value)
      {
        var v := PositionValue(value);
        JoinSnoc(cmds, [letters[i]] + v, " ");
        assert letters[..i + 1][..i] == letters[..i];
        cmds := cmds + [[letters[i]] + v];
      }
      assert letters[..|letters|] == letters;
      var code := Join(cmds, " ");
      r := SendCommands(mdi + [TaskExecute(code)]);
    }

    /** `_jogXYCmdsFromTo(start, end)` */
    method JogXYCmdsFromTo(start: Point, end: Point, vmax: real) returns (jog: Batch)
      ensures jog == XYJogs(start, end, vmax)
    {
      jog := [];
      if !Roughly(start.x, end.x, Tolerance) {
        var iv := IndexAndVelocity('x', vmax);
        jog := jog + [AxisJog(iv.0, iv.1, Some(start.x - end.x))];
      }
      if !Roughly(start.y, end.y, Tolerance) {
        var iv := IndexAndVelocity('y', vmax);
        jog := jog + [AxisJog(iv.0, iv.1, Some(start.y - end.y))];
      }
    }

    /** The jog batches of `scanJob`: to the first corner unless already
        there, then along every side. */
    method ScanJogs(begin: Point, path: seq<Point>, vmax: real, tol: real) returns (jog: seq<Batch>)
      requires |path| > 0
      ensures jog == ScanBatches(begin, path, vmax, tol)
    {
      jog := [];
      if !Coincide(begin, path[0], tol) {
        var first := JogXYCmdsFromTo(begin, path[0], vmax);
        jog := jog + [first];
      }
      var sides := SideJogs(path, vmax);
      jog := jog + sides;
    }

    /** The loop of `scanJob` over consecutive points of the path. */
    method SideJogs(path: seq<Point>, vmax: real) returns (jog: seq<Batch>)
      requires |path| > 0
      ensures jog == Sides(path, vmax)
    {
      jog := [];
      for i := 0 to |path| - 1
        invariant jog == seq(i, k requires 0 <= k < i => XYJogs(path[k], path[k + 1], vmax))
      {
        var side := JogXYCmdsFromTo(path[i], path[i + 1], vmax);
        jog := jog + [side];
      }
    }

    /** `scanJob(forward)`: `begin` is the machine's display position in
        the plane and `tol` the geometry library's point tolerance. */
    method ScanJob(forward: bool, box: Option<BoundBox>, begin: Point, vmax: real, tol: real,
                   manual: seq<Cmd>) returns (r: ScanOutcome)
      ensures r == ScanPlan(forward, box, begin, vmax, tol, manual)
    {
      if box.None? {
        return NoJobUploaded;
      }
      var bb := box.value;
      if !BoxValid(bb) {
        return InvalidBoundBox;
      }
      var pts := ScanCorners(begin, bb, forward);
      var jog := ScanJogs(begin, pts, vmax, tol);
      r := Scan(SendCommandSequence(Singletons(manual) + jog));
    }
  }
}
