/**
 What the roof solver guarantees: the equal-angle rule, the bounds the ridge
 clamp keeps, the plane-intersection identity, the ridge being above both
 eaves, the rafter floor, left/right symmetry and the area bookkeeping.
 */
module RoofProperties {
  import opened RealOps
  import opened RoofSolver

  /** The same inputs with other gutter heights. */
  function WithGutters(inp: Inputs, leftGutterHeight: real, rightGutterHeight: real): Inputs
  {
    inp.(leftGutterHeight := leftGutterHeight, rightGutterHeight := rightGutterHeight)
  }

  /** On integer slider angles, the 0.1 degree tolerance only catches equal angles. */
  lemma SliderAnglesNearlyEqualIffEqual(leftAngle: int, rightAngle: int)
    ensures NearlyEqualAngles(leftAngle as real, rightAngle as real) <==> leftAngle == rightAngle
  {
    if leftAngle != rightAngle {
      assert Abs(leftAngle as real - rightAngle as real) >= 1.0;
    }
  }

  /** Slider angles have positive tangents, so the intersection formula is always defined. */
  lemma SliderInputsSolvable(inp: Inputs, tan: real -> real)
    requires InSliderRange(inp.leftAngle) && InSliderRange(inp.rightAngle)
    requires TanPositiveOnSlider(tan)
    ensures Solvable(inp, tan)
    ensures tan(inp.leftAngle) + tan(inp.rightAngle) > 0.0
  {
  }

  /**
   With (nearly) equal angles the ridge is at mid-span, and the gutter heights
   have no say in where it stands.
   */
  lemma EqualAnglesRidgeAtMidspan(inp: Inputs, tan: real -> real, sqrt: real -> real,
                                  leftGutterHeight: real, rightGutterHeight: real)
    requires NearlyEqualAngles(inp.leftAngle, inp.rightAngle)
    ensures Solve(inp, tan, sqrt).ridgePosition == inp.width / 2.0
    ensures Solve(WithGutters(inp, leftGutterHeight, rightGutterHeight), tan, sqrt).ridgePosition
         == Solve(inp, tan, sqrt).ridgePosition
  {
  }

  /**
   Outside the equal-angle case the ridge is at least `RidgeMargin` from the
   left wall whatever the width; it is also that far from the right wall when
   the span leaves room for both margins, and pinned to `RidgeMargin` when it
   does not.
   */
  lemma ClampedRidgeBounds(inp: Inputs, tan: real -> real, sqrt: real -> real)
    requires !NearlyEqualAngles(inp.leftAngle, inp.rightAngle)
    requires tan(inp.leftAngle) + tan(inp.rightAngle) != 0.0
    ensures Solve(inp, tan, sqrt).ridgePosition >= RidgeMargin
    ensures inp.width >= 2.0 * RidgeMargin ==> Solve(inp, tan, sqrt).ridgePosition <= inp.width - RidgeMargin
    ensures inp.width < 2.0 * RidgeMargin ==> Solve(inp, tan, sqrt).ridgePosition == RidgeMargin
  {
  }

  /**
   The equal-angle branch is not clamped: on a span narrower than both margins
   its ridge lies closer to the left wall than `RidgeMargin`.
   */
  lemma EqualAnglesNarrowSpanUnclamped(inp: Inputs, tan: real -> real, sqrt: real -> real)
    requires NearlyEqualAngles(inp.leftAngle, inp.rightAngle)
    requires inp.width < 2.0 * RidgeMargin
    ensures Solve(inp, tan, sqrt).ridgePosition < RidgeMargin
  {
  }

  /** The intersection formula has exactly one solution: any meeting point of the two planes is it. */
  lemma PlaneIntersectionUnique(inp: Inputs, tanLeft: real, tanRight: real, y: real)
    requires tanLeft + tanRight != 0.0
    requires LeftPlaneAt(inp, tanLeft, y) == RightPlaneAt(inp, tanRight, y)
    ensures y == PlaneIntersection(inp, tanLeft, tanRight)
  {
    var x := PlaneIntersection(inp, tanLeft, tanRight);
    PlaneGap(inp, tanLeft, tanRight, y);
    assert (y - x) * (tanLeft + tanRight) == 0.0;
  }

  /**
   How far the left plane is above the right plane at `p`: proportional to the
   distance from `p` to the intersection point.
   */
  lemma PlaneGap(inp: Inputs, tanLeft: real, tanRight: real, p: real)
    requires tanLeft + tanRight != 0.0
    ensures LeftPlaneAt(inp, tanLeft, p) - RightPlaneAt(inp, tanRight, p)
         == (p - PlaneIntersection(inp, tanLeft, tanRight)) * (tanLeft + tanRight)
  {
    var x := PlaneIntersection(inp, tanLeft, tanRight);
    calc {
      LeftPlaneAt(inp, tanLeft, p) - RightPlaneAt(inp, tanRight, p);
      (LeftPlaneAt(inp, tanLeft, p) - RightPlaneAt(inp, tanRight, p))
        - (LeftPlaneAt(inp, tanLeft, x) - RightPlaneAt(inp, tanRight, x));
      tanLeft * (p - x) + tanRight * (p - x);
      (p - x) * (tanLeft + tanRight);
    }
  }

  /**
   When the clamp leaves the intersection point alone, the ridge stands there,
   both planes reach exactly the ridge height, and each rafter follows its
   own slope.
   */
  lemma IntersectionIdentity(inp: Inputs, tan: real -> real, sqrt: real -> real)
    requires !NearlyEqualAngles(inp.leftAngle, inp.rightAngle)
    requires tan(inp.leftAngle) + tan(inp.rightAngle) != 0.0
    requires RidgeMargin <= PlaneIntersection(inp, tan(inp.leftAngle), tan(inp.rightAngle)) <= inp.width - RidgeMargin
    ensures Solve(inp, tan, sqrt).ridgePosition == PlaneIntersection(inp, tan(inp.leftAngle), tan(inp.rightAngle))
    ensures inp.leftGutterHeight + Solve(inp, tan, sqrt).ridgePosition * tan(inp.leftAngle)
         == inp.rightGutterHeight + (inp.width - Solve(inp, tan, sqrt).ridgePosition) * tan(inp.rightAngle)
    ensures Solve(inp, tan, sqrt).ridgeHeight == inp.leftGutterHeight + Solve(inp, tan, sqrt).leftRoofHeight
    ensures Solve(inp, tan, sqrt).ridgeHeight == inp.rightGutterHeight + Solve(inp, tan, sqrt).rightRoofHeight
  {
    var g := Solve(inp, tan, sqrt);
    var x := PlaneIntersection(inp, tan(inp.leftAngle), tan(inp.rightAngle));
    assert g.ridgePosition == x;
    assert LeftPlaneAt(inp, tan(inp.leftAngle), x) == RightPlaneAt(inp, tan(inp.rightAngle), x);
  }

  /**
   When the clamp moves the ridge off the intersection point, the planes no
   longer meet there and the ridge height is set by the plane on the side the
   ridge was pushed towards: the left plane when the intersection lies too far
   left, the right plane when it lies too far right.
   */
  lemma ClampedRidgeFollowsNearerPlane(inp: Inputs, tan: real -> real, sqrt: real -> real)
    requires !NearlyEqualAngles(inp.leftAngle, inp.rightAngle)
    requires tan(inp.leftAngle) + tan(inp.rightAngle) > 0.0
    requires inp.width >= 2.0 * RidgeMargin
    ensures PlaneIntersection(inp, tan(inp.leftAngle), tan(inp.rightAngle)) < RidgeMargin ==>
              Solve(inp, tan, sqrt).ridgeHeight == inp.leftGutterHeight + Solve(inp, tan, sqrt).leftRoofHeight
              && Solve(inp, tan, sqrt).ridgeHeight > inp.rightGutterHeight + Solve(inp, tan, sqrt).rightRoofHeight
    ensures PlaneIntersection(inp, tan(inp.leftAngle), tan(inp.rightAngle)) > inp.width - RidgeMargin ==>
              Solve(inp, tan, sqrt).ridgeHeight == inp.rightGutterHeight + Solve(inp, tan, sqrt).rightRoofHeight
              && Solve(inp, tan, sqrt).ridgeHeight > inp.leftGutterHeight + Solve(inp, tan, sqrt).leftRoofHeight
  {
    var g := Solve(inp, tan, sqrt);
    var tanLeft, tanRight := tan(inp.leftAngle), tan(inp.rightAngle);
    var x := PlaneIntersection(inp, tanLeft, tanRight);
    PlaneGap(inp, tanLeft, tanRight, g.ridgePosition);
    if x < RidgeMargin {
      assert g.ridgePosition == RidgeMargin;
      assert (g.ridgePosition - x) * (tanLeft + tanRight) > 0.0;
    }
    if x > inp.width - RidgeMargin {
      assert g.ridgePosition == inp.width - RidgeMargin;
      assert (g.ridgePosition - x) * (tanLeft + tanRight) < 0.0;
    }
  }

  /** The clamped ridge is the point of the allowed band nearest to the intersection point. */
  lemma ClampIsNearestInBand(width: real, raw: real, y: real)
    requires width >= 2.0 * RidgeMargin
    requires RidgeMargin <= y <= width - RidgeMargin
    ensures Abs(ClampRidge(width, raw) - raw) <= Abs(y - raw)
  {
  }

  /**
   The ridge is never below either roof plane at the ridge line, and it is as
   high as the taller of the two.
   */
  lemma RidgeHeightCoversBothPlanes(inp: Inputs, tan: real -> real, sqrt: real -> real)
    requires Solvable(inp, tan)
    ensures Solve(inp, tan, sqrt).ridgeHeight >= inp.leftGutterHeight + Solve(inp, tan, sqrt).leftRoofHeight
    ensures Solve(inp, tan, sqrt).ridgeHeight >= inp.rightGutterHeight + Solve(inp, tan, sqrt).rightRoofHeight
    ensures Solve(inp, tan, sqrt).ridgeHeight == inp.leftGutterHeight + Solve(inp, tan, sqrt).leftRoofHeight
         || Solve(inp, tan, sqrt).ridgeHeight == inp.rightGutterHeight + Solve(inp, tan, sqrt).rightRoofHeight
  {
  }

  /**
   Over a ridge between the walls with non-negative slopes, the ridge height
   is at or above both eaves.
   */
  lemma RidgeHeightAboveEaves(inp: Inputs, tanLeft: real, tanRight: real, x: real)
    requires tanLeft >= 0.0 && tanRight >= 0.0
    requires 0.0 <= x <= inp.width
    ensures RidgeHeight(inp, tanLeft, tanRight, x) >= inp.leftGutterHeight
    ensures RidgeHeight(inp, tanLeft, tanRight, x) >= inp.rightGutterHeight
  {
    assert Rise(tanLeft, x) >= 0.0;
    assert Rise(tanRight, inp.width - x) >= 0.0;
  }

  /**
   With slider angles and a ridge between the walls, the ridge is at or above
   both eaves. Outside the equal-angle case the clamp keeps the ridge between
   the walls once the span is at least `RidgeMargin` wide.
   */
  lemma RidgeAboveBothEaves(inp: Inputs, tan: real -> real, sqrt: real -> real)
    requires InSliderRange(inp.leftAngle) && InSliderRange(inp.rightAngle)
    requires TanPositiveOnSlider(tan)
    requires (NearlyEqualAngles(inp.leftAngle, inp.rightAngle) && inp.width >= 0.0) || inp.width >= RidgeMargin
    ensures Solve(inp, tan, sqrt).ridgeHeight >= inp.leftGutterHeight
    ensures Solve(inp, tan, sqrt).ridgeHeight >= inp.rightGutterHeight
  {
    SliderInputsSolvable(inp, tan);
    var x := RidgePosition(inp, tan);
    RidgeHeightAboveEaves(inp, tan(inp.leftAngle), tan(inp.rightAngle), x);
  }

  /**
   Below `RidgeMargin` the bound fails: on a 50 mm span with unequal slider
   angles the clamp puts the ridge at 100 mm, past the right wall, so the right
   plane descends to the ridge and the ridge ends up under the right eave. Any
   positive constant tangent shows it; 1 is used here.
   */
  lemma NarrowSpanRidgeBelowEave(sqrt: real -> real)
    ensures var tan := (a: real) => 1.0;
      var inp := Inputs(50.0, 1000.0, 0.0, 1000.0, 30.0, 45.0);
      InSliderRange(inp.leftAngle) && InSliderRange(inp.rightAngle) && TanPositiveOnSlider(tan)
      && !NearlyEqualAngles(inp.leftAngle, inp.rightAngle)
      && Solve(inp, tan, sqrt).ridgePosition == RidgeMargin
      && Solve(inp, tan, sqrt).ridgeHeight == 950.0
      && Solve(inp, tan, sqrt).ridgeHeight < inp.rightGutterHeight
  {
    var tan := (a: real) => 1.0;
    var inp := Inputs(50.0, 1000.0, 0.0, 1000.0, 30.0, 45.0);
    assert PlaneIntersection(inp, 1.0, 1.0) == 525.0;
    assert RidgePosition(inp, tan) == RidgeMargin;
  }

  /**
   Each rafter is at least `MinRafterLength`, and is exactly the Euclidean
   eave-to-ridge distance whenever that distance reaches the minimum.
   */
  lemma RafterLengthsFloored(inp: Inputs, tan: real -> real, sqrt: real -> real)
    requires Solvable(inp, tan)
    ensures var g := Solve(inp, tan, sqrt);
      var d := EaveToRidge(g.ridgePosition, g.ridgeHeight - inp.leftGutterHeight, sqrt);
      g.leftRoofLength >= MinRafterLength && (d >= MinRafterLength ==> g.leftRoofLength == d)
    ensures var g := Solve(inp, tan, sqrt);
      var d := EaveToRidge(inp.width - g.ridgePosition, g.ridgeHeight - inp.rightGutterHeight, sqrt);
      g.rightRoofLength >= MinRafterLength && (d >= MinRafterLength ==> g.rightRoofLength == d)
  {
  }

  /** With a true square root, the eave-to-ridge distance is the hypotenuse of run and rise. */
  lemma EaveToRidgeSquared(run: real, rise: real, sqrt: real -> real)
    requires IsSqrt(sqrt)
    ensures EaveToRidge(run, rise, sqrt) >= 0.0
    ensures EaveToRidge(run, rise, sqrt) * EaveToRidge(run, rise, sqrt) == run * run + rise * rise
  {
    assert 0.0 <= run * run + rise * rise;
  }

  /**
   With a true square root, a rafter is at least as long as its horizontal run
   and its vertical rise.
   */
  lemma RafterCoversRunAndRise(run: real, rise: real, sqrt: real -> real)
    requires IsSqrt(sqrt)
    ensures RafterLength(run, rise, sqrt) >= Abs(run)
    ensures RafterLength(run, rise, sqrt) >= Abs(rise)
  {
    var len := EaveToRidge(run, rise, sqrt);
    EaveToRidgeSquared(run, rise, sqrt);
    assert Abs(run) * Abs(run) == run * run;
    assert Abs(rise) * Abs(rise) == rise * rise;
    SquareMonotone(Abs(run), len);
    SquareMonotone(Abs(rise), len);
  }

  /** Both rafters of a solved roof cover their run and their rise. */
  lemma RaftersCoverRunAndRise(inp: Inputs, tan: real -> real, sqrt: real -> real)
    requires Solvable(inp, tan)
    requires IsSqrt(sqrt)
    ensures Solve(inp, tan, sqrt).leftRoofLength >= Abs(Solve(inp, tan, sqrt).ridgePosition)
    ensures Solve(inp, tan, sqrt).leftRoofLength >= Abs(Solve(inp, tan, sqrt).ridgeHeight - inp.leftGutterHeight)
    ensures Solve(inp, tan, sqrt).rightRoofLength >= Abs(inp.width - Solve(inp, tan, sqrt).ridgePosition)
    ensures Solve(inp, tan, sqrt).rightRoofLength >= Abs(Solve(inp, tan, sqrt).ridgeHeight - inp.rightGutterHeight)
  {
    var g := Solve(inp, tan, sqrt);
    RafterCoversRunAndRise(g.ridgePosition, g.ridgeHeight - inp.leftGutterHeight, sqrt);
    RafterCoversRunAndRise(inp.width - g.ridgePosition, g.ridgeHeight - inp.rightGutterHeight, sqrt);
  }

  /** The square of the length of a line with tangent `slope` over a horizontal `run`: run² · (1 + slope²). */
  function SlopedLengthSquared(run: real, slope: real): real
  {
    run * run * (1.0 + slope * slope)
  }

  /**
   A rafter whose rise is its run times the slope's tangent lies along that
   slope: its square is run² · (1 + tan²), unless the minimum length took over.
   */
  lemma RafterAlongSlope(run: real, slope: real, sqrt: real -> real)
    requires IsSqrt(sqrt)
    ensures var r := RafterLength(run, Rise(slope, run), sqrt);
      r * r >= SlopedLengthSquared(run, slope)
      && (r > MinRafterLength ==> r * r == SlopedLengthSquared(run, slope))
  {
    var rise := Rise(slope, run);
    var r := RafterLength(run, rise, sqrt);
    var len := EaveToRidge(run, rise, sqrt);
    EaveToRidgeSquared(run, rise, sqrt);
    assert len * len == SlopedLengthSquared(run, slope);
    SquareMonotoneUp(len, r);
  }

  /**
   When the left plane sets the ridge height, the left rafter is the rafter
   along the left slope over the run to the ridge (so `RafterAlongSlope` gives
   its length).
   */
  lemma LeftRafterFollowsSlope(inp: Inputs, tan: real -> real, sqrt: real -> real)
    requires Solvable(inp, tan)
    requires Solve(inp, tan, sqrt).ridgeHeight == inp.leftGutterHeight + Solve(inp, tan, sqrt).leftRoofHeight
    ensures var g := Solve(inp, tan, sqrt);
      g.leftRoofLength == RafterLength(g.ridgePosition, Rise(tan(inp.leftAngle), g.ridgePosition), sqrt)
  {
    var g := Solve(inp, tan, sqrt);
    assert g.ridgeHeight - inp.leftGutterHeight == Rise(tan(inp.leftAngle), g.ridgePosition);
  }

  /**
   When the right plane sets the ridge height, the right rafter is the rafter
   along the right slope over the run from the ridge to the right wall.
   */
  lemma RightRafterFollowsSlope(inp: Inputs, tan: real -> real, sqrt: real -> real)
    requires Solvable(inp, tan)
    requires Solve(inp, tan, sqrt).ridgeHeight == inp.rightGutterHeight + Solve(inp, tan, sqrt).rightRoofHeight
    ensures var g := Solve(inp, tan, sqrt);
      var run := inp.width - g.ridgePosition;
      g.rightRoofLength == RafterLength(run, Rise(tan(inp.rightAngle), run), sqrt)
  {
    var g := Solve(inp, tan, sqrt);
    var run := inp.width - g.ridgePosition;
    assert g.ridgeHeight - inp.rightGutterHeight == Rise(tan(inp.rightAngle), run);
  }

  /**
   Equal angles and equal gutter heights give a symmetric roof: the ridge at
   mid-span, equal roof heights, rafters and areas on both sides.
   */
  lemma Symmetry(inp: Inputs, tan: real -> real, sqrt: real -> real)
    requires inp.leftAngle == inp.rightAngle
    requires inp.leftGutterHeight == inp.rightGutterHeight
    ensures Solve(inp, tan, sqrt).ridgePosition == inp.width / 2.0
    ensures Solve(inp, tan, sqrt).leftRoofHeight == Solve(inp, tan, sqrt).rightRoofHeight
    ensures Solve(inp, tan, sqrt).leftRoofLength == Solve(inp, tan, sqrt).rightRoofLength
    ensures Solve(inp, tan, sqrt).leftRoofArea == Solve(inp, tan, sqrt).rightRoofArea
  {
    var g := Solve(inp, tan, sqrt);
    assert NearlyEqualAngles(inp.leftAngle, inp.rightAngle);
    assert inp.width - g.ridgePosition == g.ridgePosition;
  }

  /**
   With equal gutter heights on slider angles, the ridge sits on the side of
   the steeper slope: left of mid-span when the left slope is steeper, right
   of it when the right slope is.
   */
  lemma RidgeLeansToSteeperSide(inp: Inputs, tan: real -> real, sqrt: real -> real)
    requires InSliderRange(inp.leftAngle) && InSliderRange(inp.rightAngle)
    requires TanPositiveOnSlider(tan) && TanIncreasingOnSlider(tan)
    requires inp.leftGutterHeight == inp.rightGutterHeight
    requires inp.width >= 2.0 * RidgeMargin
    ensures inp.leftAngle > inp.rightAngle ==> Solve(inp, tan, sqrt).ridgePosition <= inp.width / 2.0
    ensures inp.leftAngle < inp.rightAngle ==> Solve(inp, tan, sqrt).ridgePosition >= inp.width / 2.0
  {
    SliderInputsSolvable(inp, tan);
    if !NearlyEqualAngles(inp.leftAngle, inp.rightAngle) {
      var tanLeft, tanRight := tan(inp.leftAngle), tan(inp.rightAngle);
      if inp.leftAngle > inp.rightAngle {
        assert tanRight < tanLeft;
      }
      if inp.leftAngle < inp.rightAngle {
        assert tanLeft < tanRight;
      }
      EqualGuttersIntersectionSide(inp, tanLeft, tanRight);
    }
  }

  /**
   With equal gutter heights the planes meet on the side of the steeper one.
   */
  lemma EqualGuttersIntersectionSide(inp: Inputs, tanLeft: real, tanRight: real)
    requires inp.leftGutterHeight == inp.rightGutterHeight
    requires tanLeft + tanRight > 0.0
    requires inp.width >= 0.0
    ensures tanRight <= tanLeft ==> PlaneIntersection(inp, tanLeft, tanRight) <= inp.width / 2.0
    ensures tanLeft <= tanRight ==> PlaneIntersection(inp, tanLeft, tanRight) >= inp.width / 2.0
  {
    var x := PlaneIntersection(inp, tanLeft, tanRight);
    var s := tanLeft + tanRight;
    assert x * s == inp.width * tanRight;
    assert (x - inp.width / 2.0) * s == inp.width * (tanRight - tanLeft) / 2.0;
    if tanRight <= tanLeft {
      assert inp.width * (tanRight - tanLeft) <= 0.0;
    }
    if tanLeft <= tanRight {
      assert inp.width * (tanRight - tanLeft) >= 0.0;
    }
  }

  /** A rafter of at least the minimum length covers at least the minimum area. */
  lemma RoofAreaFloor(rafterLength: real, length: real)
    requires rafterLength >= MinRafterLength && length >= 0.0
    ensures RoofArea(rafterLength, length) >= RoofArea(MinRafterLength, length)
  {
    assert (rafterLength - MinRafterLength) * length >= 0.0;
  }

  /** Areas of two rafters over the same length add up to the area of their combined length. */
  lemma RoofAreaAdditive(a: real, b: real, length: real)
    ensures RoofArea(a, length) + RoofArea(b, length) == RoofArea(a + b, length)
  {
    assert a * length + b * length == (a + b) * length;
  }

  /** Each side's area is its rafter length times the building length, converted from mm² to m². */
  lemma SideAreas(inp: Inputs, tan: real -> real, sqrt: real -> real)
    requires Solvable(inp, tan)
    ensures Solve(inp, tan, sqrt).leftRoofArea * MmSquaredPerMSquared == Solve(inp, tan, sqrt).leftRoofLength * inp.length
    ensures Solve(inp, tan, sqrt).rightRoofArea * MmSquaredPerMSquared == Solve(inp, tan, sqrt).rightRoofLength * inp.length
  {
  }

  /** The total area is exactly the area of both rafters laid end to end along the building. */
  lemma TotalAreaOfBothRafters(inp: Inputs, tan: real -> real, sqrt: real -> real)
    requires Solvable(inp, tan)
    ensures Solve(inp, tan, sqrt).totalRoofArea
         == RoofArea(Solve(inp, tan, sqrt).leftRoofLength + Solve(inp, tan, sqrt).rightRoofLength, inp.length)
  {
    var g := Solve(inp, tan, sqrt);
    RoofAreaAdditive(g.leftRoofLength, g.rightRoofLength, inp.length);
  }

  /** With a non-negative building length each side has at least the area of a minimum-length rafter. */
  lemma SideAreasAtLeastMinimum(inp: Inputs, tan: real -> real, sqrt: real -> real)
    requires Solvable(inp, tan)
    requires inp.length >= 0.0
    ensures Solve(inp, tan, sqrt).leftRoofArea >= RoofArea(MinRafterLength, inp.length)
    ensures Solve(inp, tan, sqrt).rightRoofArea >= RoofArea(MinRafterLength, inp.length)
  {
    var g := Solve(inp, tan, sqrt);
    RoofAreaFloor(g.leftRoofLength, inp.length);
    RoofAreaFloor(g.rightRoofLength, inp.length);
  }

  /**
   The default form: a 6000 mm span, 10000 mm long, 2500 mm gutters on both
   sides and 30 degree slopes. The ridge is at 3000 mm and the two halves of
   the roof are equal.
   */
  lemma DefaultRoofIsSymmetric(tan: real -> real, sqrt: real -> real)
    ensures var g := Solve(Inputs(6000.0, 10000.0, 2500.0, 2500.0, 30.0, 30.0), tan, sqrt);
      && g.ridgePosition == 3000.0
      && g.leftRoofLength == g.rightRoofLength
      && g.totalRoofArea == 2.0 * g.leftRoofArea
      && g.leftRoofArea == g.leftRoofLength / 100.0
  {
    Symmetry(Inputs(6000.0, 10000.0, 2500.0, 2500.0, 30.0, 30.0), tan, sqrt);
  }
}
