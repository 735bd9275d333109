/** Probe points, leveling points and the bed mesh of a printer. */
module BedGeometry {
  import opened Prelude
  import opened MotionSpace

  // ----- probe points -----

  function Clamp(x: real, range: Range, margin: real): real {
    Max(range.low + margin, Min(range.high - margin, x))
  }

  function ClampPoint(p: Point, area: Area, margin: real): Point {
    Point(Clamp(p.x, area.x, margin), Clamp(p.y, area.y, margin))
  }

  function Inset(range: Range, margin: real): Range {
    Range(range.low + margin, range.high - margin)
  }

  /** The area is wide enough for the margin on both sides. */
  predicate Holds(area: Area, margin: real) {
    margin >= 0.0 && Inset(area.x, margin).Width() >= 0.0 && Inset(area.y, margin).Width() >= 0.0
  }

  /** `derive_probing_points`: each point moved to the nearest one inside the margins. */
  method DeriveProbingPoints(space: PrinterMotionSpace, targets: seq<Point>, margin: real) returns (points: seq<Point>)
    ensures |points| == |targets|
    ensures forall i :: 0 <= i < |targets| ==> points[i] == ClampPoint(targets[i], space.Probeable(), margin)
    ensures Holds(space.Probeable(), margin) ==>
      forall i :: 0 <= i < |points| ==> space.Probeable().Contains(points[i])
  {
    points := [];
    for i := 0 to |targets|
      invariant |points| == i
      invariant forall j :: 0 <= j < i ==> points[j] == ClampPoint(targets[j], space.Probeable(), margin)
    {
      points := points + [ClampPoint(targets[i], space.Probeable(), margin)];
    }
  }

  /** Clamping moves a coordinate no further than needed: what is inside stays, what is outside meets the edge. */
  lemma ClampIsNearest(x: real, range: Range, margin: real, y: real)
    requires Inset(range, margin).Width() >= 0.0 && Inset(range, margin).Contains(y)
    ensures Inset(range, margin).Contains(Clamp(x, range, margin))
    ensures (if x >= Clamp(x, range, margin) then x - Clamp(x, range, margin) else Clamp(x, range, margin) - x)
         <= (if x >= y then x - y else y - x)
  {
  }

  function Reachable(space: PrinterMotionSpace, points: seq<Point>): seq<Point> {
    if points == [] then []
    else (if space.ProbeReachable().Contains(points[0]) then [points[0]] else []) + Reachable(space, points[1..])
  }

  /** `filter_reachable_points`. */
  method FilterReachablePoints(space: PrinterMotionSpace, points: seq<Point>) returns (kept: seq<Point>)
    ensures kept == Reachable(space, points)
  {
    kept := [];
    for i := 0 to |points|
      invariant kept + Reachable(space, points[i..]) == Reachable(space, points)
    {
      assert points[i..][1..] == points[i + 1..];
      if space.ProbeReachable().Contains(points[i]) {
        kept := kept + [points[i]];
      }
    }
  }

  /** Every kept point can be probed with the nozzle in its travel, and no reachable point is dropped. */
  lemma {:induction false} ReachableIsProbed(space: PrinterMotionSpace, points: seq<Point>)
    ensures forall p :: p in Reachable(space, points) <==> p in points && space.InTravel(space.Nozzle(p))
    decreases |points|
  {
    if points != [] {
      ReachableIsProbed(space, points[1..]);
      assert forall p :: p in points <==> p == points[0] || p in points[1..];
    }
  }

  /** Probing points that were derived with the margins in range all pass the reachability filter. */
  lemma {:induction false} DerivedPointsAreReachable(space: PrinterMotionSpace, points: seq<Point>)
    requires forall i :: 0 <= i < |points| ==> space.Probeable().Contains(points[i])
    ensures Reachable(space, points) == points
    decreases |points|
  {
    if points != [] {
      assert space.ProbeReachable().Contains(points[0]);
      DerivedPointsAreReachable(space, points[1..]);
    }
  }

  // ----- leveling points -----

  /** The probe tip positions at the two ends of an axis, 10 mm inside; they cross when the axis is shorter than 20 mm. */
  function LevelingRange(probeable: Range): Range {
    Range(Min(probeable.low + 10.0, probeable.high - 10.0), Max(probeable.high - 10.0, probeable.low + 10.0))
  }

  datatype LevelingPoints = LevelingPoints(zTilt: seq<Point>, quadGantry: seq<Point>)

  function Corners(x: Range, y: Range): seq<Point> {
    [Point(x.low, y.low), Point(x.high, y.low), Point(x.high, y.high), Point(x.low, y.high)]
  }

  /** `derive_leveling_points`: nozzle coordinates, by the number of Z motors. */
  function DeriveLevelingPoints(space: PrinterMotionSpace, motors: int): LevelingPoints {
    var x := LevelingRange(space.Probeable().x).Shifted(-space.offset.x);
    var y := LevelingRange(space.Probeable().y).Shifted(-space.offset.y);
    var tilt :=
      if motors == 2 then [Point(x.low, y.Middle()), Point(x.high, y.Middle())]
      else if motors == 3 then [Point(x.low, y.low), Point(x.high, y.low), Point(x.Middle(), y.high)]
      else if motors >= 4 then Corners(x, y)
      else [];
    LevelingPoints(tilt, Corners(x, y))
  }

  function Tips(space: PrinterMotionSpace, points: seq<Point>): (r: seq<Point>)
    ensures |r| == |points| && forall i :: 0 <= i < |r| ==> r[i] == space.Tip(points[i])
  {
    seq(|points|, i requires 0 <= i < |points| => space.Tip(points[i]))
  }

  /**
    Where the tip probes: 10 mm inside the ends of the probeable area, on its middle line for two motors,
    in a triangle for three and at the four corners from four motors on, as always for the gantry.
   */
  lemma LevelingPointsArePlaced(space: PrinterMotionSpace, motors: int)
    ensures var area, points := space.Probeable(), DeriveLevelingPoints(space, motors);
      var left := if area.x.Width() >= 20.0 then area.x.low + 10.0 else area.x.high - 10.0;
      var front := if area.y.Width() >= 20.0 then area.y.low + 10.0 else area.y.high - 10.0;
      var right, back := area.x.low + area.x.high - left, area.y.low + area.y.high - front;
      var corners := [Point(left, front), Point(right, front), Point(right, back), Point(left, back)];
      && Tips(space, points.quadGantry) == corners
      && Tips(space, points.zTilt) ==
           if motors < 2 then []
           else if motors == 2 then [Point(left, area.y.Middle()), Point(right, area.y.Middle())]
           else if motors == 3 then [Point(left, front), Point(right, front), Point(area.x.Middle(), back)]
           else corners
  {
  }

  predicate AllInTravel(space: PrinterMotionSpace, points: seq<Point>) {
    forall p :: p in points ==> space.InTravel(p)
  }

  predicate AllTipsProbeable(space: PrinterMotionSpace, points: seq<Point>) {
    forall p :: p in points ==> space.Probeable().Contains(space.Tip(p))
  }

  /** The gantry corners are on the probeable area exactly when each of its axes is at least 10 mm. */
  lemma LevelingPointsAreProbeable(space: PrinterMotionSpace, motors: int)
    ensures AllTipsProbeable(space, DeriveLevelingPoints(space, motors).quadGantry) <==>
      space.Probeable().x.Width() >= 10.0 && space.Probeable().y.Width() >= 10.0
    ensures space.Probeable().x.Width() >= 10.0 && space.Probeable().y.Width() >= 10.0 ==>
      && AllTipsProbeable(space, DeriveLevelingPoints(space, motors).zTilt)
      && AllInTravel(space, DeriveLevelingPoints(space, motors).zTilt)
      && AllInTravel(space, DeriveLevelingPoints(space, motors).quadGantry)
  {
    var x, y := LevelingRange(space.Probeable().x), LevelingRange(space.Probeable().y);
    var quad := DeriveLevelingPoints(space, motors).quadGantry;
    assert quad[0] in quad && quad[1] in quad && quad[2] in quad;
    assert space.Tip(quad[0]) == Point(x.low, y.low) && space.Tip(quad[2]) == Point(x.high, y.high);
    if space.Probeable().x.Width() >= 10.0 && space.Probeable().y.Width() >= 10.0 {
      forall p | p in quad + DeriveLevelingPoints(space, motors).zTilt
        ensures space.Probeable().Contains(space.Tip(p)) && space.InTravel(p)
      {
      }
    }
  }

  /** The corners are in nozzle travel exactly when 10 mm from each probeable end is still within the probe's reach. */
  lemma LevelingPointsInTravel(space: PrinterMotionSpace, motors: int)
    ensures AllInTravel(space, DeriveLevelingPoints(space, motors).quadGantry) <==>
      LevelingRange(space.Probeable().x).Within(space.ProbeReachable().x)
      && LevelingRange(space.Probeable().y).Within(space.ProbeReachable().y)
  {
    var quad := DeriveLevelingPoints(space, motors).quadGantry;
    assert quad[0] in quad && quad[2] in quad;
  }

  // ----- the bed mesh -----

  /** The mesh bounds on one axis: a margin of 10 mm, else 2 mm, else none. */
  method MeshBounds(probeable: Range) returns (mesh: Range)
    requires probeable.low < probeable.high
    ensures mesh.low < mesh.high && mesh.Within(probeable)
    ensures mesh == Inset(probeable, if probeable.Width() >= 30.0 then 10.0 else if probeable.Width() >= 6.0 then 2.0 else 0.0)
    ensures mesh.Middle() == probeable.Middle()
  {
    var low, high := probeable.low + 10.0, probeable.high - 10.0;
    if high - low < 10.0 {
      low, high := probeable.low + 2.0, probeable.high - 2.0;
    }
    if high - low < 2.0 {
      low, high := probeable.low, probeable.high;
    }
    mesh := Range(low, high);
  }

  function AxisCount(size: real): int {
    if size < 100.0 then 3 else if size < 180.0 then 4 else if size <= 300.0 then 5 else 7
  }

  datatype Algorithm = Lagrange | Bicubic | Direct

  datatype MeshError = NothingToProbe | TooClose | BadCount | LagrangeTooMany | BicubicTooUneven

  /** The automatic choice: what the profile does not select. */
  datatype Mesh = Mesh(countX: int, countY: int, ppsX: nat, ppsY: nat, algorithm: Algorithm)

  function MaxInt(a: int, b: int): int {
    if a >= b then a else b
  }

  function MinInt(a: int, b: int): int {
    if a <= b then a else b
  }

  /** `validate_mesh_interpolation` on the counts and the algorithm; the effective algorithm. */
  function Interpolation(m: Mesh): Result<Algorithm, MeshError> {
    if MinInt(m.countX, m.countY) < 3 then Failure(BadCount)
    else if m.ppsX == 0 && m.ppsY == 0 then Success(Direct)
    else if m.algorithm == Lagrange && MaxInt(m.countX, m.countY) > 6 then Failure(LagrangeTooMany)
    else if m.algorithm == Bicubic && MinInt(m.countX, m.countY) < 4 then
      (if MaxInt(m.countX, m.countY) > 6 then Failure(BicubicTooUneven) else Success(Lagrange))
    else Success(m.algorithm)
  }

  /** An algorithm is effective only on counts that Klipper takes it for; a profile is refused when there is none. */
  lemma InterpolationMeans(m: Mesh)
    requires m.algorithm != Direct
    ensures var fewest, most := MinInt(m.countX, m.countY), MaxInt(m.countX, m.countY);
      && (Interpolation(m).Success? ==>
            && fewest >= 3
            && (Interpolation(m).value == Direct <==> m.ppsX == 0 && m.ppsY == 0)
            && (Interpolation(m).value == Lagrange ==> most <= 6)
            && (Interpolation(m).value == Bicubic ==> fewest >= 4 && m.algorithm == Bicubic))
      && (Interpolation(m).Failure? <==>
            fewest < 3 || ((m.ppsX > 0 || m.ppsY > 0) && most > 6 && (m.algorithm == Lagrange || (m.algorithm == Bicubic && fewest == 3))))
  {
  }

  /** The rule on the distance of the points, in hundredths of a millimetre as the code rounds it. */
  predicate Spaced(mesh: Range, count: int)
    requires count >= 2
  {
    (mesh.Width() / (count - 1) as real * 100.0).Floor as real / 100.0 >= 1.0
  }

  lemma SpacingIsOneMillimetre(mesh: Range, count: int)
    requires count >= 2
    ensures Spaced(mesh, count) <==> mesh.Width() >= (count - 1) as real
  {
    var n := (count - 1) as real;
    var per := mesh.Width() / n;
    assert per * n == mesh.Width();
    assert Spaced(mesh, count) <==> per * 100.0 >= 100.0;
    if per >= 1.0 {
      assert per * n >= 1.0 * n by { Times(per, 1.0, n); }
    } else {
      assert per * n < 1.0 * n by { Times(1.0, per, n); }
    }
  }

  lemma Times(a: real, b: real, n: real)
    requires n > 0.0
    ensures a >= b ==> a * n >= b * n
    ensures a > b ==> a * n > b * n
  {
  }

  /** The counts and the algorithm without a selection of the profile; `pps` may have been selected. */
  method AutomaticMesh(space: PrinterMotionSpace, ppsX: nat, ppsY: nat) returns (m: Mesh)
    ensures Interpolation(m).Success? && m.ppsX == ppsX && m.ppsY == ppsY
    ensures m.countX in {3, 4, 5, 7} && m.countY in {3, 4, 5, 7}
    ensures m.countX >= AxisCount(space.x.printable.Width()) && m.countY >= AxisCount(space.y.printable.Width())
    ensures var wx, wy, interpolated := space.x.printable.Width(), space.y.printable.Width(), ppsX > 0 || ppsY > 0;
      && m.countX == (if wx > 300.0 then 7 else if wx >= 180.0 then 5
                      else if wx >= 100.0 || (interpolated && wy > 300.0) then 4 else 3)
      && m.countY == (if wy > 300.0 then 7 else if wy >= 180.0 then 5
                      else if wy >= 100.0 || (interpolated && wx > 300.0) then 4 else 3)
    ensures (ppsX > 0 || ppsY > 0) ==>
      (Interpolation(m) == Success(Bicubic) <==> MinInt(m.countX, m.countY) >= 4)
      && (Interpolation(m) == Success(Lagrange) <==> MinInt(m.countX, m.countY) == 3)
  {
    var countX, countY := AxisCount(space.x.printable.Width()), AxisCount(space.y.printable.Width());
    if MaxInt(ppsX, ppsY) > 0 && MaxInt(countX, countY) > 6 {
      countX, countY := MaxInt(4, countX), MaxInt(4, countY);
    }
    m := Mesh(countX, countY, ppsX, ppsY, if MinInt(countX, countY) >= 4 then Bicubic else Lagrange);
  }

  /**
    The automatic mesh of a printer lies in the probeable area, in reach of the nozzle, with at least
    one millimetre between its points; it fails only when nothing, or less than 12 mm, can be probed.
   */
  method GenerateMesh(space: PrinterMotionSpace, ppsX: nat, ppsY: nat)
    returns (r: Result<(Mesh, Range, Range), MeshError>)
    ensures r.Success? ==>
      var (m, mx, my) := r.value;
      && space.CanProbe() && Interpolation(m).Success?
      && mx.low < mx.high && mx.Within(space.Probeable().x) && my.low < my.high && my.Within(space.Probeable().y)
      && space.InTravel(space.Nozzle(Point(mx.low, my.low))) && space.InTravel(space.Nozzle(Point(mx.high, my.high)))
      && mx.Width() >= (m.countX - 1) as real && my.Width() >= (m.countY - 1) as real
    ensures space.CanProbe() && space.Probeable().x.Width() >= 12.0 && space.Probeable().y.Width() >= 12.0 ==> r.Success?
    ensures r.Failure? ==> r.error in {NothingToProbe, TooClose}
    ensures !space.CanProbe() ==> r == Failure(NothingToProbe)
  {
    if !space.CanProbe() {
      return Failure(NothingToProbe);
    }
    var mx := MeshBounds(space.Probeable().x);
    var my := MeshBounds(space.Probeable().y);
    var m := AutomaticMesh(space, ppsX, ppsY);
    SpacingIsOneMillimetre(mx, m.countX);
    SpacingIsOneMillimetre(my, m.countY);
    if !Spaced(mx, m.countX) || !Spaced(my, m.countY) {
      return Failure(TooClose);
    }
    space.ProbeableMeansReachable(Point(mx.low, my.low));
    space.ProbeableMeansReachable(Point(mx.high, my.high));
    r := Success((m, mx, my));
  }
}
