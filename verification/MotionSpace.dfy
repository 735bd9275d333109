/** The geometry of a printer over exact reals: travel, printable area, probe offset, and what is derived from them. */
module MotionSpace {
  import opened Prelude

  datatype Range = Range(low: real, high: real) {
    predicate Contains(x: real) {
      low <= x <= high
    }

    predicate Within(other: Range) {
      other.low <= low && high <= other.high
    }

    function Shifted(delta: real): Range {
      Range(low + delta, high + delta)
    }

    function Width(): real {
      high - low
    }

    function Middle(): real {
      (low + high) / 2.0
    }
  }

  function Max(a: real, b: real): (r: real)
    ensures r >= a && r >= b && (r == a || r == b)
  {
    if a >= b then a else b
  }

  function Min(a: real, b: real): (r: real)
    ensures r <= a && r <= b && (r == a || r == b)
  {
    if a <= b then a else b
  }

  // ----- the wizard's answers -----

  datatype AxisInput = AxisInput(size: Option<real>, positionMin: Option<real>, positionMax: Option<real>,
                                 printableMin: Option<real>, printableMax: Option<real>)

  datatype Axis = Axis(travel: Range, printable: Range)

  function Default(value: Option<real>, fallback: real): real {
    if value.Some? then value.value else fallback
  }

  /** The travel of an axis; without limits it is the size of the printer. */
  function Travel(i: AxisInput): Range {
    Range(Default(i.positionMin, 0.0), Default(i.positionMax, Default(i.size, 235.0)))
  }

  function RawPrintable(i: AxisInput): Range {
    var travel := Travel(i);
    Range(Default(i.printableMin, Max(travel.low, 0.0)), Default(i.printableMax, Default(i.size, travel.high)))
  }

  /** One axis of `PrinterMotionSpace.__init__`: the derived printable range is moved into the travel if it fits. */
  method DeriveAxis(i: AxisInput) returns (axis: Axis)
    ensures axis.travel == Travel(i) && axis.printable.Width() == RawPrintable(i).Width()
    ensures i.printableMin.Some? || i.printableMax.Some? ==> axis.printable == RawPrintable(i)
    ensures i.printableMin.None? && i.printableMax.None? ==>
      (axis.printable.Within(axis.travel) <==> RawPrintable(i).Width() <= Travel(i).Width())
    ensures RawPrintable(i).Within(Travel(i)) ==> axis.printable == RawPrintable(i)
  {
    var travel, raw := Travel(i), RawPrintable(i);
    var low, high := raw.low, raw.high;
    if i.printableMin.None? && i.printableMax.None? {
      if high > travel.high {
        var shift := high - travel.high;
        if low - shift >= travel.low {
          low := low - shift;
          high := high - shift;
        }
      } else if low < travel.low {
        var shift := travel.low - low;
        if high + shift <= travel.high {
          low := low + shift;
          high := high + shift;
        }
      }
    }
    axis := Axis(travel, Range(low, high));
  }

  datatype GeometryError = OutOfBounds | EmptyTravel | EmptyPrintable | OutsideTravel | Unprobeable | OutsideNozzleTravel

  predicate Bounded(x: real) {
    -2000.0 <= x <= 2000.0
  }

  /** An axis that passed the validation of the wizard's answers. */
  predicate Sound(a: Axis) {
    && a.travel.low < a.travel.high && a.printable.low < a.printable.high
    && a.printable.Within(a.travel)
  }

  /** The validation completes the printable range on its own: a missing size counts as 235 mm here. */
  function CheckedPrintable(i: AxisInput): Range {
    Range(Default(i.printableMin, Max(Travel(i).low, 0.0)), Default(i.printableMax, Default(i.size, 235.0)))
  }

  /** The geometry part of `normalize_and_validate_configuration`, for the X and Y axes. */
  method ValidateAxis(i: AxisInput) returns (r: Result<Axis, GeometryError>)
    ensures r.Success? <==>
      (&& 1.0 <= Default(i.size, 235.0) <= 2000.0
       && Bounded(Travel(i).low) && Bounded(Travel(i).high)
       && Bounded(CheckedPrintable(i).low) && Bounded(CheckedPrintable(i).high)
       && Sound(Axis(Travel(i), CheckedPrintable(i))))
    ensures r.Success? ==> r.value == Axis(Travel(i), CheckedPrintable(i)) && Sound(r.value)
  {
    var size := Default(i.size, 235.0);
    var travel := Range(Default(i.positionMin, 0.0), Default(i.positionMax, size));
    if !(1.0 <= size <= 2000.0) || !Bounded(travel.low) || !Bounded(travel.high) {
      return Failure(OutOfBounds);
    }
    if travel.low >= travel.high {
      return Failure(EmptyTravel);
    }
    var low := Default(i.printableMin, if travel.low > 0.0 then travel.low else 0.0);
    var high := Default(i.printableMax, size);
    if !Bounded(low) || !Bounded(high) {
      return Failure(OutOfBounds);
    }
    if low >= high {
      return Failure(EmptyPrintable);
    }
    if low < travel.low || high > travel.high {
      return Failure(OutsideTravel);
    }
    r := Success(Axis(travel, Range(low, high)));
  }

  /** What is validated is what is derived, unless neither the size nor a printable limit is answered but a travel limit is. */
  lemma ChecksWhatIsDerived(i: AxisInput)
    ensures CheckedPrintable(i) == RawPrintable(i) <==>
      i.size.Some? || i.printableMax.Some? || i.positionMax.None? || i.positionMax.value == 235.0
    ensures i.size.Some? && i.size.value > 0.0 && i.positionMin.None? && i.positionMax.None?
            && i.printableMin.None? && i.printableMax.None? ==>
      Travel(i) == RawPrintable(i) == Range(0.0, i.size.value)
  {
  }

  /** The validation writes the range it checked back as explicit limits. */
  function Explicit(i: AxisInput): AxisInput {
    i.(printableMin := Some(CheckedPrintable(i).low), printableMax := Some(CheckedPrintable(i).high))
  }

  /** The answers about the Z axis. */
  datatype HeightInput = HeightInput(size: Option<real>, positionMin: Option<real>, positionMax: Option<real>,
                                     printableMax: Option<real>)

  datatype Height = Height(travel: Range, printableMax: real)

  function CheckedHeight(i: HeightInput): Height {
    var travel := Range(Default(i.positionMin, 0.0), Default(i.positionMax, Default(i.size, 250.0)));
    Height(travel, Default(i.printableMax, Default(i.size, travel.high)))
  }

  predicate SoundHeight(h: Height) {
    h.travel.low < h.printableMax <= h.travel.high
  }

  method ValidateHeight(i: HeightInput) returns (r: Result<Height, GeometryError>)
    ensures r.Success? <==>
      (var h := CheckedHeight(i);
       && 1.0 <= Default(i.size, 250.0) <= 2000.0 && Bounded(h.travel.low) && Bounded(h.travel.high)
       && 0.0 < h.printableMax <= 2000.0 && SoundHeight(h))
    ensures r.Success? ==> r.value == CheckedHeight(i) && SoundHeight(r.value)
  {
    var size := Default(i.size, 250.0);
    var low, high := Default(i.positionMin, 0.0), Default(i.positionMax, size);
    if !(1.0 <= size <= 2000.0) || !Bounded(low) || !Bounded(high) {
      return Failure(OutOfBounds);
    }
    if low >= high {
      return Failure(EmptyTravel);
    }
    var printable := Default(i.printableMax, Default(i.size, high));
    if !(0.0 < printable <= 2000.0) {
      return Failure(OutOfBounds);
    }
    if !(low < printable <= high) {
      return Failure(OutsideTravel);
    }
    r := Success(Height(Range(low, high), printable));
  }

  // ----- areas and positions -----

  datatype Point = Point(x: real, y: real)
  datatype Area = Area(x: Range, y: Range) {
    predicate Contains(p: Point) {
      x.Contains(p.x) && y.Contains(p.y)
    }
  }

  class PrinterMotionSpace {
    const x: Axis
    const y: Axis
    const z: Range
    const printableZMax: real
    const offset: Point

    constructor (x: AxisInput, y: AxisInput, z: Range, printableZMax: real, offset: Point)
      ensures this.x.travel == Travel(x) && this.y.travel == Travel(y)
      ensures RawPrintable(x).Within(Travel(x)) ==> this.x.printable == RawPrintable(x)
      ensures RawPrintable(y).Within(Travel(y)) ==> this.y.printable == RawPrintable(y)
      ensures this.z == z && this.printableZMax == printableZMax && this.offset == offset
    {
      var ax := DeriveAxis(x);
      var ay := DeriveAxis(y);
      this.x, this.y, this.z, this.printableZMax, this.offset := ax, ay, z, printableZMax, offset;
    }

    function ProbeReachable(): Area {
      Area(x.travel.Shifted(offset.x), y.travel.Shifted(offset.y))
    }

    function Probeable(): Area {
      var reach := ProbeReachable();
      Area(Range(Max(x.printable.low, reach.x.low), Min(x.printable.high, reach.x.high)),
           Range(Max(y.printable.low, reach.y.low), Min(y.printable.high, reach.y.high)))
    }

    function NozzleRangeForProbing(): Area {
      Area(Range(Max(x.travel.low, x.printable.low - offset.x), Min(x.travel.high, x.printable.high - offset.x)),
           Range(Max(y.travel.low, y.printable.low - offset.y), Min(y.travel.high, y.printable.high - offset.y)))
    }

    predicate CanProbe() {
      Probeable().x.low < Probeable().x.high && Probeable().y.low < Probeable().y.high
    }

    predicate InTravel(p: Point) {
      x.travel.Contains(p.x) && y.travel.Contains(p.y)
    }

    /** The tip of the probe when the nozzle is at `nozzle`. */
    function Tip(nozzle: Point): Point {
      Point(nozzle.x + offset.x, nozzle.y + offset.y)
    }

    function Nozzle(tip: Point): Point {
      Point(tip.x - offset.x, tip.y - offset.y)
    }

    /** A tip position in the printable area is probeable exactly when the nozzle can put the tip there. */
    lemma ProbeableMeansReachable(tip: Point)
      ensures Probeable().Contains(tip) <==>
        InTravel(Nozzle(tip)) && x.printable.Contains(tip.x) && y.printable.Contains(tip.y)
      ensures Probeable().Contains(tip) <==> NozzleRangeForProbing().Contains(Nozzle(tip))
    {
    }

    /** The nozzle range for probing is the probeable area, seen from the nozzle. */
    lemma NozzleRangeIsShiftedArea()
      ensures NozzleRangeForProbing()
        == Area(Probeable().x.Shifted(-offset.x), Probeable().y.Shifted(-offset.y))
    {
    }

    /**
      `safe_z_home_position`: fails exactly when nothing can be probed; otherwise the nozzle is in
      its travel and the tip over the middle of the probeable area.  The last two checks never fire.
     */
    method SafeZHome() returns (r: Result<Point, GeometryError>)
      ensures r.Success? <==> CanProbe()
      ensures r.Success? ==>
        && InTravel(r.value) && Probeable().Contains(Tip(r.value))
        && Tip(r.value) == Point(Probeable().x.Middle(), Probeable().y.Middle())
      ensures r.Failure? ==> r.error == Unprobeable
    {
      var area := Probeable();
      if area.x.low >= area.x.high || area.y.low >= area.y.high {
        return Failure(Unprobeable);
      }
      var nozzle := Nozzle(Point(area.x.Middle(), area.y.Middle()));
      if !x.travel.Contains(nozzle.x) {
        return Failure(OutsideNozzleTravel);
      }
      if !y.travel.Contains(nozzle.y) {
        return Failure(OutsideNozzleTravel);
      }
      r := Success(nozzle);
    }

    /** The least height in the travel that is `enough`, or the given part of the printable height if that is less. */
    ghost predicate IsClearance(height: real, enough: real, parts: real) {
      && (height >= enough || parts * height >= printableZMax)
      && forall h :: z.Contains(h) && (h >= enough || parts * h >= printableZMax) ==> height <= h
    }

    /**
      `starter_macro_positions`: all in travel, the parking spot on the printable area, a tenth of it but at
      most 10 mm from its edges; the macros wait above 50 mm or a fifth of the printable height and move
      above 20 mm or a tenth, as low as that allows.
     */
    method StarterMacroPositions() returns (center: Point, park: Point, safeZ: real, movementZ: real)
      requires Sound(x) && Sound(y) && SoundHeight(Height(z, printableZMax))
      ensures InTravel(center) && InTravel(park) && z.Contains(safeZ) && z.Contains(movementZ)
      ensures safeZ <= printableZMax && movementZ <= printableZMax
      ensures x.printable.Contains(park.x) && y.printable.Contains(park.y)
      ensures center.x - x.printable.low == x.printable.high - center.x
      ensures center.y - y.printable.low == y.printable.high - center.y
      ensures park.x - x.printable.low == if x.printable.Width() >= 100.0 then 10.0 else x.printable.Width() / 10.0
      ensures park.y - y.printable.low == if y.printable.Width() >= 100.0 then 10.0 else y.printable.Width() / 10.0
      ensures printableZMax > 0.0 ==> movementZ <= safeZ && IsClearance(safeZ, 50.0, 5.0) && IsClearance(movementZ, 20.0, 10.0)
      ensures printableZMax <= 0.0 ==> safeZ == movementZ == printableZMax
    {
      center := Point(x.printable.Middle(), y.printable.Middle());
      var marginX := Min(10.0, Max(0.0, x.printable.Width() / 10.0));
      var marginY := Min(10.0, Max(0.0, y.printable.Width() / 10.0));
      park := Point(x.printable.low + marginX, y.printable.low + marginY);
      safeZ := Min(printableZMax, Max(z.low, Min(50.0, printableZMax * 0.2)));
      movementZ := Min(printableZMax, Max(z.low, Min(20.0, printableZMax * 0.1)));
    }
  }

  /** Validated answers, and the motion space that is built from them. */
  method BuildValidated(x: AxisInput, y: AxisInput, z: HeightInput, offset: Point)
    returns (r: Result<PrinterMotionSpace, GeometryError>)
    ensures r.Success? ==>
      && fresh(r.value) && r.value.offset == offset
      && r.value.x == Axis(Travel(x), CheckedPrintable(x)) && Sound(r.value.x)
      && r.value.y == Axis(Travel(y), CheckedPrintable(y)) && Sound(r.value.y)
      && Height(r.value.z, r.value.printableZMax) == CheckedHeight(z)
      && SoundHeight(CheckedHeight(z)) && r.value.printableZMax > 0.0
  {
    var ax :- ValidateAxis(x);
    var ay :- ValidateAxis(y);
    var height :- ValidateHeight(z);
    var space := new PrinterMotionSpace(Explicit(x), Explicit(y), height.travel, height.printableMax, offset);
    r := Success(space);
  }

  datatype Positions = Positions(center: Point, park: Point, safeZ: real, movementZ: real)

  /**
    From the answers to the starter macros: whatever passes the validation yields positions in the
    travel that was answered, the parking spot on the printable area.
   */
  method StarterMacros(x: AxisInput, y: AxisInput, z: HeightInput, offset: Point)
    returns (r: Result<Positions, GeometryError>)
    ensures r.Success? ==>
      var p, height := r.value, CheckedHeight(z);
      && Travel(x).Contains(p.center.x) && Travel(y).Contains(p.center.y)
      && Travel(x).Contains(p.park.x) && Travel(y).Contains(p.park.y)
      && CheckedPrintable(x).Contains(p.park.x) && CheckedPrintable(y).Contains(p.park.y)
      && height.travel.Contains(p.safeZ) && p.movementZ <= p.safeZ <= height.printableMax
      && height.travel.Contains(p.movementZ)
      && (p.safeZ >= 50.0 || 5.0 * p.safeZ >= height.printableMax)
      && (p.movementZ >= 20.0 || 10.0 * p.movementZ >= height.printableMax)
  {
    var space :- BuildValidated(x, y, z, offset);
    var center, park, safeZ, movementZ := space.StarterMacroPositions();
    r := Success(Positions(center, park, safeZ, movementZ));
  }
}
