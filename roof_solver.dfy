/**
 The geometry solver of the asymmetric gable-roof calculator.

 From the span width, the building length, the two gutter heights and the two
 slope angles it derives where the ridge stands, how high it is, how long each
 rafter is and how much roof surface each side has. All lengths are in
 millimetres, angles in degrees and areas in square metres.

 The tangent and the square root come from the host's math library; they are
 parameters here. `tan` takes an angle in DEGREES, so it stands for the
 composition `deg -> Math.tan(deg * Math.PI / 180)`; `sqrt` stands for
 `Math.sqrt`. Being functions, equal angles give equal tangents.
 */
module RoofSolver {
  import opened RealOps

  /** Lower end of the angle sliders, in degrees. */
  const SliderMin: real := 5.0
  /** Upper end of the angle sliders, in degrees. */
  const SliderMax: real := 60.0
  /** Angles closer than this (degrees) are treated as equal. */
  const AngleTolerance: real := 0.1
  /** Least distance (mm) kept between the ridge and either wall. */
  const RidgeMargin: real := 100.0
  /** Least rafter length (mm) ever reported. */
  const MinRafterLength: real := 2500.0
  /** Square millimetres in one square metre. */
  const MmSquaredPerMSquared: real := 1000000.0

  /** The six numbers the form collects. */
  datatype Inputs = Inputs(
    width: real,
    length: real,
    leftGutterHeight: real,
    rightGutterHeight: real,
    leftAngle: real,
    rightAngle: real)

  /** Everything the solver derives, as handed to the results panel and the diagram. */
  datatype Geometry = Geometry(
    ridgePosition: real,
    leftRoofHeight: real,
    rightRoofHeight: real,
    ridgeHeight: real,
    leftWallHeight: real,
    rightWallHeight: real,
    leftRoofLength: real,
    rightRoofLength: real,
    leftRoofArea: real,
    rightRoofArea: real,
    totalRoofArea: real)

  /** The equal-angle case, in which the ridge is put at mid-span. */
  predicate NearlyEqualAngles(leftAngle: real, rightAngle: real)
  {
    Abs(leftAngle - rightAngle) < AngleTolerance
  }

  /** An angle the sliders can produce. */
  predicate InSliderRange(angle: real)
  {
    SliderMin <= angle <= SliderMax
  }

  /** The intersection formula is only evaluated when its denominator is non-zero. */
  predicate Solvable(inp: Inputs, tan: real -> real)
  {
    NearlyEqualAngles(inp.leftAngle, inp.rightAngle) || tan(inp.leftAngle) + tan(inp.rightAngle) != 0.0
  }

  /** Every slider angle has a positive tangent. */
  ghost predicate TanPositiveOnSlider(tan: real -> real)
  {
    forall a: real :: InSliderRange(a) ==> tan(a) > 0.0
  }

  /** The tangent grows with the angle over the slider range. */
  ghost predicate TanIncreasingOnSlider(tan: real -> real)
  {
    forall a: real, b: real :: InSliderRange(a) && InSliderRange(b) && a < b ==> tan(a) < tan(b)
  }

  /** Height a roof plane with slope tangent `slope` gains over a horizontal `run`. */
  function Rise(slope: real, run: real): real
  {
    slope * run
  }

  /** Height of the left roof plane above the ground at distance `x` from the left wall. */
  function LeftPlaneAt(inp: Inputs, tanLeft: real, x: real): real
  {
    inp.leftGutterHeight + Rise(tanLeft, x)
  }

  /** Height of the right roof plane above the ground at distance `x` from the left wall. */
  function RightPlaneAt(inp: Inputs, tanRight: real, x: real): real
  {
    inp.rightGutterHeight + Rise(tanRight, inp.width - x)
  }

  /**
   The distance from the left wall at which the left plane, rising from the
   left eave, meets the right plane, rising from the right eave.
   */
  function PlaneIntersection(inp: Inputs, tanLeft: real, tanRight: real): (x: real)
    requires tanLeft + tanRight != 0.0
    ensures LeftPlaneAt(inp, tanLeft, x) == RightPlaneAt(inp, tanRight, x)
  {
    var heightDiff := inp.rightGutterHeight - inp.leftGutterHeight;
    (inp.width * tanRight + heightDiff) / (tanLeft + tanRight)
  }

  /**
   Keeps the ridge `RidgeMargin` away from both walls, applying the upper bound
   first and the lower bound last.
   */
  function ClampRidge(width: real, raw: real): (p: real)
    ensures p >= RidgeMargin
    ensures width >= 2.0 * RidgeMargin ==> p <= width - RidgeMargin
    ensures RidgeMargin <= raw <= width - RidgeMargin ==> p == raw
    ensures width < 2.0 * RidgeMargin ==> p == RidgeMargin
    ensures p == raw || p == RidgeMargin || p == width - RidgeMargin
  {
    Max(RidgeMargin, Min(width - RidgeMargin, raw))
  }

  /** Where the ridge stands, measured from the left wall. */
  function RidgePosition(inp: Inputs, tan: real -> real): (p: real)
    requires Solvable(inp, tan)
    ensures NearlyEqualAngles(inp.leftAngle, inp.rightAngle) ==> p == inp.width / 2.0
    ensures !NearlyEqualAngles(inp.leftAngle, inp.rightAngle) ==> p >= RidgeMargin
    ensures !NearlyEqualAngles(inp.leftAngle, inp.rightAngle) && inp.width >= 2.0 * RidgeMargin ==>
              p <= inp.width - RidgeMargin
  {
    if NearlyEqualAngles(inp.leftAngle, inp.rightAngle) then
      inp.width / 2.0
    else
      ClampRidge(inp.width, PlaneIntersection(inp, tan(inp.leftAngle), tan(inp.rightAngle)))
  }

  /**
   The ridge height for a ridge at `x`: the higher of the two plane heights
   there, so that the ridge is never below either roof plane.
   */
  function RidgeHeight(inp: Inputs, tanLeft: real, tanRight: real, x: real): (h: real)
    ensures h >= LeftPlaneAt(inp, tanLeft, x) && h >= RightPlaneAt(inp, tanRight, x)
    ensures h == LeftPlaneAt(inp, tanLeft, x) || h == RightPlaneAt(inp, tanRight, x)
  {
    Max(LeftPlaneAt(inp, tanLeft, x), RightPlaneAt(inp, tanRight, x))
  }

  /** The straight-line distance covered by a rafter with this horizontal run and vertical rise. */
  function EaveToRidge(run: real, rise: real, sqrt: real -> real): real
  {
    sqrt(run * run + rise * rise)
  }

  /**
   A rafter's length from its horizontal run and vertical rise: the Euclidean
   length, but never less than `MinRafterLength`.
   */
  function RafterLength(run: real, rise: real, sqrt: real -> real): (r: real)
    ensures r >= MinRafterLength && r >= EaveToRidge(run, rise, sqrt)
    ensures EaveToRidge(run, rise, sqrt) >= MinRafterLength ==> r == EaveToRidge(run, rise, sqrt)
    ensures EaveToRidge(run, rise, sqrt) < MinRafterLength ==> r == MinRafterLength
  {
    Max(EaveToRidge(run, rise, sqrt), MinRafterLength)
  }

  /** Roof surface in m² of a rafter (mm) extruded along the building length (mm). */
  function RoofArea(rafterLength: real, length: real): (a: real)
    ensures a * MmSquaredPerMSquared == rafterLength * length
  {
    (rafterLength * length) / MmSquaredPerMSquared
  }

  /**
   The whole derivation, from the six inputs to the geometry record: each
   field is produced by the helper that specifies it, from the fields before it.
   */
  function Solve(inp: Inputs, tan: real -> real, sqrt: real -> real): (g: Geometry)
    requires Solvable(inp, tan)
    ensures g.ridgePosition == RidgePosition(inp, tan)
    ensures g.leftRoofHeight == Rise(tan(inp.leftAngle), g.ridgePosition)
    ensures g.rightRoofHeight == Rise(tan(inp.rightAngle), inp.width - g.ridgePosition)
    ensures g.ridgeHeight == RidgeHeight(inp, tan(inp.leftAngle), tan(inp.rightAngle), g.ridgePosition)
    ensures g.leftWallHeight == inp.leftGutterHeight && g.rightWallHeight == inp.rightGutterHeight
    ensures g.leftRoofLength == RafterLength(g.ridgePosition, g.ridgeHeight - inp.leftGutterHeight, sqrt)
    ensures g.rightRoofLength == RafterLength(inp.width - g.ridgePosition, g.ridgeHeight - inp.rightGutterHeight, sqrt)
    ensures g.leftRoofArea == RoofArea(g.leftRoofLength, inp.length)
    ensures g.rightRoofArea == RoofArea(g.rightRoofLength, inp.length)
    ensures g.totalRoofArea == g.leftRoofArea + g.rightRoofArea
  {
    var ridgePosition := RidgePosition(inp, tan);
    var tanLeft, tanRight := tan(inp.leftAngle), tan(inp.rightAngle);
    var leftRoofHeight := Rise(tanLeft, ridgePosition);
    var rightRoofHeight := Rise(tanRight, inp.width - ridgePosition);
    var ridgeHeight := RidgeHeight(inp, tanLeft, tanRight, ridgePosition);
    var leftRoofLength := RafterLength(ridgePosition, ridgeHeight - inp.leftGutterHeight, sqrt);
    var rightRoofLength := RafterLength(inp.width - ridgePosition, ridgeHeight - inp.rightGutterHeight, sqrt);
    var leftRoofArea := RoofArea(leftRoofLength, inp.length);
    var rightRoofArea := RoofArea(rightRoofLength, inp.length);
    Geometry(
      ridgePosition,
      leftRoofHeight,
      rightRoofHeight,
      ridgeHeight,
      inp.leftGutterHeight,
      inp.rightGutterHeight,
      leftRoofLength,
      rightRoofLength,
      leftRoofArea,
      rightRoofArea,
      leftRoofArea + rightRoofArea)
  }
}
