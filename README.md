# Asymmetric gable roof calculator: geometry solver

This project models the geometry solver of an asymmetric gable-roof calculator
(an "asymmetrisch zadeldak"). It takes six numbers: the span `width`, the
building `length`, a gutter height for each side and a slope angle for each
side. From them it derives these values:

- the ridge position, measured from the left wall;
- the roof rise on each side;
- the ridge height;
- the wall heights;
- the rafter lengths;
- the roof surface of each side and the total surface.

Lengths are in millimetres, angles in degrees and areas in square metres.

The model is written over `real`, and everything in it is a pure function with
lemmas about it. It has three modules:

- `RealOps` (`real_ops.dfy`) holds `Math.abs`, `Math.max` and `Math.min`, each
  specified by what it means. It also defines `IsSqrt`, the property a square
  root must have.
- `RoofSolver` (`roof_solver.dfy`) holds the input and output records, the
  constants, and one function per step of the derivation. `Solve` chains the
  steps together.
- `RoofProperties` (`roof_properties.dfy`) holds what the solver guarantees.

The host's `Math.tan` and `Math.sqrt` are parameters of the solver. The
`tan: real -> real` parameter takes an angle in degrees, so it stands for
`deg -> Math.tan(deg * Math.PI / 180)`. Because it is a function, equal angles
give equal tangents. Lemmas that need facts about the tangent state them as
preconditions:

- `TanPositiveOnSlider`: every angle in the slider range [5, 60] has a positive
  tangent;
- `TanIncreasingOnSlider`: the tangent increases over that range;
- `IsSqrt`: `sqrt` really is a square root on the non-negative reals.

The solver's one precondition is `Solvable`. It says that either the angles are
nearly equal or `tan(left) + tan(right) != 0`, which is exactly when the
intersection formula is evaluated and would otherwise divide by zero.
`SliderInputsSolvable` shows that slider angles always meet it.

Two behaviours of the code are worth knowing. The model follows the code in
both.

- On slider angles with equal gutter heights, the ridge moves toward the
  STEEPER slope, not the shallower one. With 45° on the left and 15° on the
  right it stands at about 0.21 × width. `RidgeLeansToSteeperSide` states
  this.
- The band `100 <= ridgePosition <= width - 100` is not kept for every input.
  The equal-angle branch is not clamped at all (`EqualAnglesNarrowSpanUnclamped`).
  In the other branch, a span narrower than 200 mm pins the ridge at 100 mm,
  which lies past `width - 100` (`ClampedRidgeBounds`).
- The ridge is not always at or above both eaves. It is when the span is at
  least 100 mm wide (`RidgeAboveBothEaves`). On a narrower span with unequal
  angles the ridge is pinned at 100 mm, beyond the right wall, and the right
  roof rise becomes negative. With a 50 mm span, gutters of 0 and 1000 mm and
  a tangent of 1 on both sides, the ridge height is 950 mm, under the 1000 mm
  right eave (`NarrowSpanRidgeBelowEave`).

## Model

The predicate `NearlyEqualAngles` is the 0.1° test of app/page.tsx:34.
`Rise`, `LeftPlaneAt` and `RightPlaneAt` are the products and sums of
app/page.tsx:50-51 and 55-56. `EaveToRidge` is the `Math.sqrt` expression of
app/page.tsx:64-65. These helpers have no contract of their own, and the rows
below that use them cover their lines.

| member | source | states |
|---|---|---|
| RealOps.Abs | app/page.tsx:34 | `Math.abs`: the result is non-negative and is x or −x |
| RealOps.Max | app/page.tsx:44 | `Math.max`: the result is at least both arguments and equal to one of them |
| RealOps.Min | app/page.tsx:44 | `Math.min`: the result is at most both arguments and equal to one of them |
| RoofSolver.PlaneIntersection | app/page.tsx:38-41 | the computed x satisfies leftGutter + x·tanLeft = rightGutter + (width − x)·tanRight, i.e. both roof planes meet above x |
| RoofSolver.ClampRidge | app/page.tsx:43-44 | max(100, min(width−100, raw)) is ≥ 100; ≤ width−100 when width ≥ 200; equals raw when raw is already in the band; equals 100 when width < 200; is always raw or one of the two bounds |
| RoofSolver.RidgePosition | app/page.tsx:23-45 | angles within 0.1° give exactly width/2; otherwise the ridge is ≥ 100 and, when width ≥ 200, ≤ width−100 |
| RoofSolver.RidgeHeight | app/page.tsx:53-57 | the ridge height is at least both plane heights at the ridge and equal to one of them |
| RoofSolver.RafterLength | app/page.tsx:63-69 | a rafter is ≥ 2500 and ≥ its Euclidean length; it equals the Euclidean length when that reaches 2500, and 2500 otherwise |
| RoofSolver.RoofArea | app/page.tsx:71-73 | the area in m² times 1 000 000 is the rafter length times the building length |
| RoofSolver.Solve | app/page.tsx:47-74 | the derived record: ridge position, roof rises, ridge height, rafters and areas each come from the step that specifies them; wall heights are the gutter heights; total area = left area + right area |
| RoofProperties.SliderAnglesNearlyEqualIffEqual | app/page.tsx:34 | on whole-degree slider angles, the 0.1° tolerance holds exactly when the angles are equal |
| RoofProperties.SliderInputsSolvable | app/page.tsx:120-141 | slider angles (5..60) with positive tangents make tanLeft + tanRight > 0, so the division is always defined |
| RoofProperties.EqualAnglesRidgeAtMidspan | app/page.tsx:33-36 | nearly equal angles put the ridge at width/2, and changing either gutter height does not move it |
| RoofProperties.ClampedRidgeBounds | app/page.tsx:43-44 | outside the equal-angle case the ridge is ≥ 100 for every width, ≤ width−100 when width ≥ 200, and exactly 100 when width < 200 |
| RoofProperties.EqualAnglesNarrowSpanUnclamped | app/page.tsx:34-36 | the equal-angle branch is unclamped: for width < 200 its ridge is closer than 100 mm to the left wall |
| RoofProperties.PlaneGap | app/page.tsx:39-41 | at any x, left plane − right plane = (x − intersection)·(tanLeft + tanRight) |
| RoofProperties.PlaneIntersectionUnique | app/page.tsx:39-41 | any point where the two planes meet is the computed intersection (the formula's solution is unique) |
| RoofProperties.IntersectionIdentity | app/page.tsx:39-57 | when the raw intersection lies in [100, width−100] the ridge stands there, the two plane equations agree, and the ridge height equals both leftGutter + leftRoofHeight and rightGutter + rightRoofHeight |
| RoofProperties.ClampedRidgeFollowsNearerPlane | app/page.tsx:43-57 | when the clamp pushes the ridge right of a too-far-left intersection the left plane sets the ridge height and is strictly above the right plane, and the mirror case for a too-far-right intersection |
| RoofProperties.ClampIsNearestInBand | app/page.tsx:44 | for width ≥ 200 the clamped ridge is the point of [100, width−100] nearest to the raw intersection |
| RoofProperties.RidgeHeightCoversBothPlanes | app/page.tsx:49-57 | ridgeHeight ≥ leftGutter + leftRoofHeight, ≥ rightGutter + rightRoofHeight, and equal to one of them |
| RoofProperties.RidgeHeightAboveEaves | app/page.tsx:50-57 | with non-negative tangents and 0 ≤ x ≤ width, the ridge height at x is at least both gutter heights |
| RoofProperties.RidgeAboveBothEaves | app/page.tsx:47-57 | on slider angles with positive tangents (and width ≥ 0 in the equal-angle case, width ≥ 100 otherwise) the ridge is at or above both eaves |
| RoofProperties.NarrowSpanRidgeBelowEave | app/page.tsx:41-57 | on a 50 mm span with unequal slider angles, gutters 0 and 1000 mm and tangent 1, the ridge is pinned at 100 mm and its height is 950 mm, under the right eave |
| RoofProperties.RafterLengthsFloored | app/page.tsx:63-69 | both solved rafters are ≥ 2500 and equal the eave-to-ridge distance whenever that distance reaches 2500 |
| RoofProperties.EaveToRidgeSquared | app/page.tsx:64-65 | with a true square root the eave-to-ridge distance is non-negative and its square is run² + rise² |
| RoofProperties.RafterCoversRunAndRise | app/page.tsx:64-69 | with a true square root a rafter is at least as long as its run and as its rise |
| RoofProperties.RaftersCoverRunAndRise | app/page.tsx:47-69 | both solved rafters cover their horizontal run and their vertical rise |
| RoofProperties.RafterAlongSlope | app/page.tsx:50-69 | a rafter whose rise is run·tan has square ≥ run²·(1 + tan²), with equality when the 2500 floor did not apply |
| RoofProperties.LeftRafterFollowsSlope | app/page.tsx:50-68 | when the left plane sets the ridge height, the left rafter is the rafter along the left slope over the ridge position |
| RoofProperties.RightRafterFollowsSlope | app/page.tsx:51-69 | when the right plane sets the ridge height, the right rafter is the rafter along the right slope over width − ridge position |
| RoofProperties.Symmetry | app/page.tsx:33-73 | equal angles and equal gutter heights give ridge at width/2 and equal roof rises, rafter lengths and areas on both sides |
| RoofProperties.EqualGuttersIntersectionSide | app/page.tsx:39-41 | with equal gutters and tanLeft + tanRight > 0 the planes meet left of mid-span when tanRight ≤ tanLeft and right of it when tanLeft ≤ tanRight |
| RoofProperties.RidgeLeansToSteeperSide | app/page.tsx:23-45 | on slider angles with an increasing positive tangent, equal gutters and width ≥ 200, the ridge is at or left of mid-span when the left slope is steeper and at or right of it when the right slope is |
| RoofProperties.RoofAreaFloor | app/page.tsx:68-73 | a rafter of at least 2500 mm over a non-negative length covers at least the area of a 2500 mm rafter |
| RoofProperties.RoofAreaAdditive | app/page.tsx:72-74 | the areas of two rafters over one length add up to the area of their combined length |
| RoofProperties.SideAreas | app/page.tsx:72-73 | each side area × 1 000 000 equals that side's rafter length × building length |
| RoofProperties.TotalAreaOfBothRafters | app/page.tsx:72-74 | the total area is exactly the area of (left rafter + right rafter) over the building length |
| RoofProperties.SideAreasAtLeastMinimum | app/page.tsx:68-73 | with length ≥ 0 each side area is at least 2500 × length / 1 000 000 |
| RoofProperties.DefaultRoofIsSymmetric | app/page.tsx:12-19 | the default form (6000 × 10000 mm, 2500 mm gutters, 30° slopes) puts the ridge at 3000 mm with equal rafters and a total area of twice one side |

## Left out

- `Math.tan`, `Math.sqrt` and `Math.PI` are not computed. They are parameters, and their needed properties are preconditions (`TanPositiveOnSlider`, `TanIncreasingOnSlider`, `IsSqrt`). So no concrete value such as tan(30°) or the 3464.1 mm rafter of the default roof is derived.
- IEEE-754 floating point is not modelled: no rounding, `NaN` or `Infinity`. Arithmetic is exact over `real`. The division by `tanLeft + tanRight` is guarded by the `Solvable` precondition instead of yielding `NaN`/`Infinity`.
- The React state (`useState` hooks), the number inputs and sliders, and the results panel's display formatting (`Math.round`, `toFixed(2)`) are left out as user interface. The only thing kept is the slider domain [5, 60], as `InSliderRange`.
- The canvas drawing in components/roof-diagram.tsx is left out as presentation. It only consumes the solver's record.
- Page metadata in app/layout.tsx is left out.
