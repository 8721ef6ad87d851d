# Naive viable-looking 2D N-body system generator, modelled in Dafny

The modelled program is a Unity toy. It places a handful of bodies on a 2D screen and gives
each one an elliptical orbit. All orbits share one focus, the mass-weighted center of mass.
The repository holds two revisions of the same four classes: a later one under `Scripts/`
and an earlier one under `Assets/Scripts/`. Both are modelled, each in its own modules:

| module | file | source |
|---|---|---|
| `Common`, `Geometry` | common.dfy, geometry.dfy | helpers; 2D vectors and the engine's maths |
| `Records` | records.dfy | Scripts/BodyData.cs |
| `Layout` | layout.dfy | what both `NBodySystemGenerator.generate` revisions share |
| `Generator` | generator.dfy | Scripts/NBodySystemGenerator.cs |
| `EarlyGenerator` | early_generator.dfy | Assets/Scripts/NBodySystemGenerator.cs |
| `Phase` | phase.dfy | the phase update shared by both `Body` revisions |
| `Orbit` | orbit.dfy | Scripts/Body.cs |
| `EarlyOrbit` | early_orbit.dfy | Assets/Scripts/Body.cs |
| `Manager` | manager.dfy | Scripts/GameManager.cs |
| `EarlyManager` | early_manager.dfy | Assets/Scripts/GameManager.cs |
| `System` | system.dfy | the later generator's records fed to the later `Body.Init` |
| `EarlySystem` | early_system.dfy | the earlier generator's records fed to the earlier `Body.init` |

How the model is built:

- **Numbers.** Floats are `real`s.
- **Engine maths.** `magnitude`, `normalized`, `Vector2.Angle`, `Quaternion.Euler` rotation,
  `Mathf.Sqrt`, `Mathf.Cos` and `Mathf.Sin` are the fields of a `Maths` value. The predicate
  `Geometry.Valid` states the few axioms the proofs use:
  - a norm is non-negative and is zero only for the zero vector;
  - scaling a vector scales its norm, and `Vector2.right` has length 1;
  - `normalized(v) * |v| == v`;
  - an angle lies in [0, 180], and an angle of 0 means the two vectors are parallel (zero cross product);
  - rotating `Vector2.right` by the signed angle of a unit vector `n` (negated when `n.y < 0`) gives `n`;
  - rotation keeps lengths and commutes with scaling;
  - `sqrt` is the non-negative square root;
  - `cos(0) == 1` and `sin(0) == 0`.
- **Randomness.** Random numbers are inputs:
  - each `Random.Range` is a fraction `t` in [0, 1], interpolated between the bounds;
  - each `Random.insideUnitCircle` is a point with both coordinates in [-1, 1].
- **The generators.** Both `generate` methods are imperative in the source, so they are modelled
  as methods over arrays:
  - `DrawMasses`, `SampleAttempt`, `CheckApart`, `FindTilts`, `ClosestToCenterOfMass`,
    `PlaceBodies`, `EarlyPlaceBodies` and the sampling loops;
  - each method is proved against functions over sequences (`Masses`, `SampledPositions`,
    `Barycenter`, `CenterOfMass`, `Apart`, `Tilts`, `LaidOut`, `EarlyLaidOut`);
  - the geometric facts are proved about those functions: translation invariance, the
    eccentricity cap, and the shared focus.
- **Output records.** The generators return `BodyData` records. The later generator calls a
  six-argument `init` that the later `Body` no longer has (Scripts/NBodySystemGenerator.cs:152
  against Scripts/Body.cs:36).
- **`System` and `EarlySystem`.** These modules connect each generator to its own `Body`
  initialisation. In both revisions every laid-out body's first focus is the system's
  center of mass, and the body's orbit point at phase 0 is its starting position.
- **Bodies.** Both `Body` classes are Dafny classes. Their fields are updated by `Init` and
  `UpdateFixedOrbitPosition`. The orbit-point computations only read fixed fields.
- **Lemmas beside the shared functions.** `Layout.Tilt`, `Layout.EllipseCenter` and the
  `ComputeFixedOrbitPosition` and `ComputeFixedOrbitVelocity` functions of both `Body`
  classes are used by most generator and manager proofs. Their properties are therefore
  stated as lemmas about them rather than as their own postconditions:
  - `TiltSign`, `TiltTurnsRight` and `TiltShift` for the tilt;
  - `SharedFocus` and `PlacedCenterSharesFocus` for the ellipse center;
  - `DistanceFromCenter`, `PhaseZeroIsApsis` and `VelocityShape` for the orbit points,
    with `InitStartsOnOrbit` stating the phase-0 property of the class functions themselves.
- **Game managers.** Both `GameManager`s are classes over their flags. Each frame's keys, the
  frame's `deltaTime` and the generator's output are parameters.

The earlier `Body` draws its orbit with the minor factor `1 - e`, not `sqrt(1 - e^2)`
(Assets/Scripts/Body.cs:85-89). Because of this, the curve it draws is not the ellipse whose
foci it stores:

- `EarlyOrbit.FlattenedCoVertex` proves that the curve's co-vertex is closer than `R` to the
  stored focus;
- `Orbit.CoVertexOnFocalCircle` proves that the later semi-minor axis `sqrt(a^2 - c^2)` puts
  the co-vertex at distance `a` from the focus.

The later revision replaced the earlier formula, so this is a simplification changed
between revisions, not a defect.

## Model

| member | source | states |
|---|---|---|
| `Records.ConstructorStoresArguments` | Scripts/BodyData.cs:20-28 | Each of the record's read-only properties holds exactly the matching constructor argument. |
| `Layout.RandomRange` | Scripts/NBodySystemGenerator.cs:61 | `Random.Range(lo, hi)` with a supplied fraction lies between the two bounds, whichever bound is larger. |
| `Layout.Masses` | Scripts/NBodySystemGenerator.cs:61 | One mass per draw, and each one lies in [minMass, maxMass]. |
| `Layout.DrawMasses` | Scripts/NBodySystemGenerator.cs:55-64 | The mass loop fills `masses` with `Masses(draws)`, sets `weights[i] == masses[i]`, and returns `totalWeights` as the sum of the masses. |
| `Layout.SumOfPositives` | Scripts/NBodySystemGenerator.cs:82 | With positive masses, the `totalWeights` divisor is positive. |
| `Layout.SampleAttempt` | Scripts/NBodySystemGenerator.cs:72-82 | One pass of the sampling loop:<br>- `positions` are the sampled points `u * (worldSize / 2 - r_i)`;<br>- `barycenter` is their unweighted mean;<br>- `centerOfMass` is sum p_i w_i / sum w_i. |
| `Layout.SampledInsideWorld` | Scripts/NBodySystemGenerator.cs:76 | A sampled body's whole disc lies within half the world size on both axes. |
| `Layout.CheckApart` | Scripts/NBodySystemGenerator.cs:85-95 | The nested pair loop leaves `apart` true exactly when every pair i < j has \|p_i - p_j\| - (r_i + r_j) >= minDistanceBetweenPlanetsSurfaces. |
| `Layout.FindTilts` | Scripts/NBodySystemGenerator.cs:99-109 | The tilt loop writes `Angle(right, p_i - com)` into every entry, negated when p_i.y < com.y. |
| `Layout.TiltSign` | Scripts/NBodySystemGenerator.cs:99-109 | A tilt is negative exactly when the body lies below the center of mass, and its size is an angle in [0, 180]. |
| `Layout.TiltTurnsRight` | Scripts/NBodySystemGenerator.cs:99-109 | Rotating `Vector2.right` by a body's tilt gives the direction from the center of mass to the body. |
| `Layout.TiltShift` | Scripts/NBodySystemGenerator.cs:122-130 | Moving the body and the center of mass by the same vector keeps the tilt. |
| `Layout.CenteringMovesBarycenterToOrigin` | Scripts/NBodySystemGenerator.cs:130 | After every position is moved by -barycenter, the barycenter of the moved positions is the origin. |
| `Layout.CenteringShiftsCenterOfMass` | Scripts/NBodySystemGenerator.cs:122 | Positions moved by -b have as center of mass the old center of mass moved by -b. |
| `Layout.CenteringKeepsApart` | Scripts/NBodySystemGenerator.cs:130 | Moving every position by the same vector keeps every pairwise separation. |
| `Layout.FirstAcceptedIsUnique` | Scripts/NBodySystemGenerator.cs:66-96 | The attempt that ends the do-while is unique: it is the first accepted one. |
| `Layout.CenteredLayout` | Scripts/NBodySystemGenerator.cs:122-130 | The centered layout:<br>- it is apart exactly when the attempt was;<br>- its barycenter is zero;<br>- its center of mass is the moved center of mass;<br>- every offset p_i - com is unchanged. |
| `Layout.SharedFocus` | Scripts/NBodySystemGenerator.cs:149 | The ellipse center lies on the segment from p toward com at distance \|p - com\| / (1 + e), and \|center - com\| == e \|center - p\|: com is a focus. |
| `Layout.PlacedCenterSharesFocus` | Scripts/NBodySystemGenerator.cs:149 | Any record whose center was placed by that rule shares the focus com. |
| `Layout.ApsisIsPosition` | Scripts/NBodySystemGenerator.cs:99-149 | For such a record tilted around com, the center plus the tilted x axis scaled by \|center - p\| is the body's position p. |
| `Layout.DirectionTimesLength` | Scripts/NBodySystemGenerator.cs:149 | normalized(v) scaled by \|v\| / (1 + e) is v scaled by 1 / (1 + e). |
| `Geometry.DirectionSign` | Scripts/NBodySystemGenerator.cs:101-107 | normalized(v) is a unit vector, and it lies below the x axis exactly when v does. |
| `Generator.ClosestIsUnique` | Scripts/NBodySystemGenerator.cs:112-119 | At most one index satisfies the closest-body characterisation. |
| `Generator.ClosestToCenterOfMass` | Scripts/NBodySystemGenerator.cs:112-119 | The search loop returns the lowest index whose distance to the center of mass is minimal among distances strictly below max(worldSize.x, worldSize.y), and 0 when there is none. |
| `Generator.EccentricityCapBounds` | Scripts/NBodySystemGenerator.cs:135-146 | With non-negative radii, the eccentricity cap lies in [min(0, maxEccentricity), maxEccentricity]. |
| `Generator.EccentricityCap` | Scripts/NBodySystemGenerator.cs:135-145 | The cap never exceeds maxEccentricity. It is either maxEccentricity, or, for a body other than the closest one and off the center of mass, the ratio (r_i + r_closest) / \|p_i - com\| when that ratio is below maxEccentricity. |
| `Generator.EccentricityCapCases` | Scripts/NBodySystemGenerator.cs:135-145 | Both directions of the case split: the cap is maxEccentricity exactly for the closest body, a body at the center of mass, or a ratio of at least maxEccentricity; and for any other body whose ratio is below maxEccentricity, the cap is that ratio. |
| `Generator.PlaceBody` | Scripts/NBodySystemGenerator.cs:132-149 | One pass of the final loop builds the record of `BodyRecord`: the capped eccentricity draw and the ellipse center. The source's `1 - (1 - x)` is computed as written and proved equal to `x`. |
| `Generator.SampleUntilApart` | Scripts/NBodySystemGenerator.cs:66-96 | The do-while over the supplied attempts:<br>- it stops at the first accepted attempt;<br>- when none is accepted, it consumes every attempt;<br>- the arrays and means are those of the last attempt it consumed. |
| `Generator.PlaceBodies` | Scripts/NBodySystemGenerator.cs:127-153 | The final loop moves every position by -barycenter and builds record k from the moved position, mass k, tilt k and eccentricity draw k. |
| `Generator.RecordsAreLaidOut` | Scripts/NBodySystemGenerator.cs:127-153 | The records the final loop builds are the records of `LaidOut`. |
| `Generator.FinishLayout` | Scripts/NBodySystemGenerator.cs:98-153 | Everything after the sampling loop yields `LaidOut`, with the moved center of mass. The arrays end holding the centered positions and the tilts of the sampled positions around the unmoved center of mass. |
| `Generator.LaidOut` | Scripts/NBodySystemGenerator.cs:127-153 | One record per body. |
| `Generator.LaidOutSystem` | Scripts/NBodySystemGenerator.cs:55-130 | The generated system:<br>- its surfaces are apart;<br>- its barycenter is the origin;<br>- its center of mass is the one the generator keeps;<br>- every mass is in [minMass, maxMass];<br>- every orbital speed is the configured one. |
| `Generator.LaidOutEccentricities` | Scripts/NBodySystemGenerator.cs:135-146 | Every eccentricity is in [0, maxEccentricity], and every body but the closest one is also capped by (r_i + r_closest) / \|p_i - com\|. |
| `Generator.LaidOutTilts` | Scripts/NBodySystemGenerator.cs:99-109 | Every record's tilt is the `Tilt` of its centered position around the kept center of mass, even though the source computed it before centering. It is negative exactly when the body lies below that center, and its size is an angle in [0, 180]. |
| `Generator.LaidOutSharedFocus` | Scripts/NBodySystemGenerator.cs:149 | Every laid-out record shares the focus at the centered center of mass. |
| `Generator.RecordSharesFocus` | Scripts/NBodySystemGenerator.cs:132-149 | A single record keeps its position, and its ellipse center shares the focus com. |
| `Generator.RecordFields` | Scripts/NBodySystemGenerator.cs:146-149 | A record's position is p, its eccentricity is non-negative, and its center is `EllipseCenter(p, com, e)`. |
| `Generator.SystemGenerator.constructor` | Scripts/NBodySystemGenerator.cs:8-31 | The Inspector settings are stored, and worldSize and centerOfMass start at zero. |
| `Generator.SystemGenerator.Generate` | Scripts/NBodySystemGenerator.cs:41-156 | `generate`:<br>- it accepts exactly when some supplied attempt is apart, and returns nothing otherwise;<br>- when it accepts, it returns the records of the first accepted attempt with the argmin closest body;<br>- it leaves the moved center of mass in the field. |
| `EarlyGenerator.EarlyAttempt` | Assets/Scripts/NBodySystemGenerator.cs:78-115 | One pass of the earlier loop:<br>- the sampled positions and both means;<br>- the tilts of that pass;<br>- `apart` exactly when the pass is separated. |
| `EarlyGenerator.EarlySampleUntilApart` | Assets/Scripts/NBodySystemGenerator.cs:76-116 | Stops at the first accepted attempt. The kept tilts are recomputed from the last pass, with the unmoved center of mass. |
| `EarlyGenerator.EarlyPlaceBodies` | Assets/Scripts/NBodySystemGenerator.cs:119-128 | The final loop moves every position and writes the speed, eccentricity and center of each record. |
| `EarlyGenerator.EarlyRecordsAreLaidOut` | Assets/Scripts/NBodySystemGenerator.cs:119-128 | The records the final loop builds are those of `EarlyLaidOut`. |
| `EarlyGenerator.EarlyFinishLayout` | Assets/Scripts/NBodySystemGenerator.cs:117-128 | Everything after the loop yields `EarlyLaidOut`, with the moved center of mass. The arrays end holding the centered positions and the tilts of the sampled positions around the unmoved center of mass. |
| `EarlyGenerator.EarlyLaidOut` | Assets/Scripts/NBodySystemGenerator.cs:119-128 | One record per body. |
| `EarlyGenerator.EarlyLaidOutSystem` | Assets/Scripts/NBodySystemGenerator.cs:62-123 | The earlier system:<br>- its surfaces are apart;<br>- its barycenter is zero;<br>- its center of mass is the kept one;<br>- every mass is in range;<br>- every speed is the configured one. |
| `EarlyGenerator.EarlyRecordSharesFocus` | Assets/Scripts/NBodySystemGenerator.cs:124-125 | A record's eccentricity is in [0, maxEccentricity], and its center shares the focus com. |
| `EarlyGenerator.EarlyLaidOutSharedFocus` | Assets/Scripts/NBodySystemGenerator.cs:123-125 | Every record has an eccentricity in [0, maxEccentricity] and shares the focus at the kept center of mass. |
| `EarlyGenerator.EarlyLaidOutTilts` | Assets/Scripts/NBodySystemGenerator.cs:91-102 | Every kept tilt is the `Tilt` of the centered position around the kept center of mass. It follows the sign rule on y, and its size is an angle in [0, 180]. |
| `EarlyGenerator.EarlySystemGenerator.constructor` | Assets/Scripts/NBodySystemGenerator.cs:8-47 | The settings, bodyCount and worldSize are stored, and centerOfMass starts at zero. |
| `EarlyGenerator.EarlySystemGenerator.Generate` | Assets/Scripts/NBodySystemGenerator.cs:49-131 | `generate`:<br>- it accepts exactly when some attempt is apart;<br>- when it accepts, it returns `bodyCount` records of the first accepted attempt;<br>- it leaves the moved center of mass in the field. |
| `Phase.Advance` | Scripts/Body.cs:171-175 | The new angle is angle + step unless that exceeds 2 pi, and then it is exactly 0. From a non-negative angle with a non-negative step, the result stays in [0, 2 pi]. |
| `Phase.AdvanceAllStaysInRange` | Scripts/Body.cs:171-175 | Starting in [0, 2 pi], any sequence of non-negative steps keeps the angle in [0, 2 pi]. |
| `Phase.WrapDropsOvershoot` | Scripts/Body.cs:172-175 | A step that crosses 2 pi resets the angle to 0, not to the remainder mod 2 pi. |
| `Orbit.Body.NewFoci` | Scripts/Body.cs:53-55 | A fresh two-element array center -/+ the focus offset; the two foci average to the ellipse center. |
| `Orbit.FociSymmetric` | Scripts/Body.cs:53-55 | The two foci are symmetric about the ellipse center, each at distance e a from it, with foci[1] offset along p - center. |
| `Orbit.SemiMinorAxisBounds` | Scripts/Body.cs:58 | b^2 == a^2 (1 - e^2) and 0 <= b <= a when 0 <= e <= 1. |
| `Orbit.CoVertexOnFocalCircle` | Scripts/Body.cs:58 | With b = sqrt(a^2 - (e a)^2), the co-vertex is at squared distance a^2 from the focus. |
| `Orbit.DistanceFromCenter` | Scripts/Body.cs:164-167 | The tilt only rotates: the orbit point is \|(a cos t, b sin t)\| from the ellipse center. |
| `Orbit.PhaseZeroIsApsis` | Scripts/Body.cs:164-167 | At phase 0 the orbit point is the center plus the tilted x axis scaled by a, whatever b is. |
| `Orbit.ApsisAtSemiMajorAxis` | Scripts/Body.cs:164-167 | At cos = 1 and sin = 0, the orbit point is the apsis, at distance a from the center. |
| `Orbit.Body.constructor` | Scripts/Body.cs:31-34 | `Awake` stores the radius; the orbit is not set yet. |
| `Orbit.Body.Init` | Scripts/Body.cs:36-58 | `Init`:<br>- copies the record's fields and the center of mass, and sets angle 0;<br>- sets semiMajorAxis == \|center - position\|;<br>- builds the two foci center -/+ normalized(position - center) e a;<br>- sets apsidesLine;<br>- sets semiMinorAxis == sqrt(a^2 - \|center - foci[0]\|^2). |
| `Orbit.Body.UpdateFixedOrbitPosition` | Scripts/Body.cs:169-177 | The angle advances as `Phase.Advance` says, and the position becomes the orbit point at the new angle. A phase in [0, 2 pi] stays there under a non-negative step. |
| `Orbit.InitialisedOrbit` | Scripts/Body.cs:49-58 | For 0 <= e <= 1, the semi-minor axis `Init` computes lies between 0 and the semi-major axis. |
| `EarlyOrbit.OppositeFocusAlongTilt` | Assets/Scripts/Body.cs:42 | foci[0] is the tilted x axis scaled by -(e R). |
| `EarlyOrbit.RelativeFociOpposite` | Assets/Scripts/Body.cs:41-43 | The relative foci are negatives of each other, each of length \|e R\|. |
| `EarlyOrbit.DistanceFromCenter` | Assets/Scripts/Body.cs:91-94 | The orbit point is \|R\| times the velocity's length from the ellipse center. |
| `EarlyOrbit.PhaseZeroIsApsis` | Assets/Scripts/Body.cs:91-94 | At phase 0 the orbit point is the center plus the tilted x axis scaled by R. |
| `EarlyOrbit.VelocityShape` | Assets/Scripts/Body.cs:85-89 | The velocity's x is cos t; for e = 0 it is (cos t, sin t); for 0 <= e <= 1 its \|y\| is at most \|sin t\|; at t = 0 it is `Vector2.right`. |
| `EarlyOrbit.ApsisAtApsidesRadius` | Assets/Scripts/Body.cs:91-94 | At cos = 1 and sin = 0, the orbit point is apsidesRadius from the center. |
| `EarlyOrbit.FlattenedCoVertex` | Assets/Scripts/Body.cs:85-89 | With the minor factor 1 - e, the co-vertex's squared distance to the focus is R^2 - 2 R^2 e (1 - e) < R^2. |
| `EarlyOrbit.HalfEccentricityCoVertex` | Assets/Scripts/Body.cs:85-89 | A worked example of the previous row: for e = 1/2 and R = 1, that squared distance is 1/2, not 1. |
| `EarlyOrbit.Body.constructor` | Assets/Scripts/Body.cs:23-26 | `Awake` stores the radius. |
| `EarlyOrbit.Body.Init` | Assets/Scripts/Body.cs:28-43 | `init`:<br>- stores its six arguments and sets angle 0;<br>- sets apsidesRadius == \|center - position\|;<br>- sets foci[0] and foci[1] to the tilted -(e R, 0) and (e R, 0). |
| `EarlyOrbit.Body.UpdateFixedOrbitPosition` | Assets/Scripts/Body.cs:96-107 | The angle advances as `Phase.Advance` says, and the position becomes the orbit point at the new angle. A phase in [0, 2 pi] stays there under a non-negative step. |
| `Manager.Truncate` | Scripts/GameManager.cs:150-153 | The (int) cast truncates toward zero. |
| `Manager.Raised` | Scripts/GameManager.cs:114-120 | P raises timeScale by 0.1 exactly when the result is below 100, and otherwise leaves it. The result lies in [timeScale, timeScale + 0.1], and a timeScale in (0, 100) stays there. |
| `Manager.Lowered` | Scripts/GameManager.cs:122-128 | O lowers timeScale by 0.1 exactly when the result is above 0, and otherwise leaves it. The result lies in [timeScale - 0.1, timeScale], and a timeScale in (0, 100) stays there. |
| `Manager.TimeScaleAfter` | Scripts/GameManager.cs:114-128 | One frame keeps timeScale in (0, 100), changes it only when P or O is held, and moves it by at most 0.1 either way (P and O together cancel). |
| `Manager.TimeScaleStaysInRange` | Scripts/GameManager.cs:114-128 | Any sequence of frames keeps a timeScale that started in (0, 100) inside (0, 100). |
| `Manager.ShowOrbitsToggle` | Scripts/GameManager.cs:109-112 | showOrbits ends flipped exactly when RightArrow went down an odd number of times, so two presses restore it. |
| `Manager.GameManager.constructor` | Scripts/GameManager.cs:37-54 | `Awake`:<br>- bodyCount is the truncated slider value;<br>- generating and simulating are false;<br>- scale is 0 and showOrbits is true. |
| `Manager.GameManager.Generate` | Scripts/GameManager.cs:136-140 | `generate()` sets generating and clears simulating. |
| `Manager.GameManager.Simulate` | Scripts/GameManager.cs:142-148 | `simulate()` toggles simulating when there are planets, and otherwise changes nothing. |
| `Manager.GameManager.SetBodyCount` | Scripts/GameManager.cs:150-153 | The slider callback stores the truncated count. |
| `Manager.GameManager.AdvancePlanets` | Scripts/GameManager.cs:58-64 | Every planet advances exactly once: its phase follows `Phase.Advance`, its position is the orbit point at the new phase, and its orbit fields are unchanged. |
| `Manager.GameManager.Step` | Scripts/GameManager.cs:58-80 | While simulating, the planets are advanced and not regenerated, and generating is kept. Otherwise the old planets are left untouched, and when generating they are replaced by the generated ones and generating is cleared. |
| `Manager.GameManager.HandleKeys` | Scripts/GameManager.cs:82-128 | Return calls `generate`, Space calls `simulate`; then zoom, the orbit toggle and the time scale follow. |
| `Manager.GameManager.HandleView` | Scripts/GameManager.cs:92-128 | Up and Down move `scale` by 4 deltaTime, RightArrow flips showOrbits, and P and O adjust timeScale under their guards. |
| `Manager.GameManager.Update` | Scripts/GameManager.cs:56-134 | One frame's whole effect: planets, generating, simulating, the advanced bodies, scale, showOrbits, timeScale and an unchanged bodyCount. When not simulating, no planet is changed. Simulating always implies there are planets. |
| `EarlyManager.GameManager.constructor` | Assets/Scripts/GameManager.cs:29-35 | `Awake` starts with no planets, and generating and simulating are false. |
| `EarlyManager.GameManager.Generate` | Assets/Scripts/GameManager.cs:64-68 | `generate()` sets generating and clears simulating. |
| `EarlyManager.GameManager.Simulate` | Assets/Scripts/GameManager.cs:70-76 | `simulate()` sets simulating only when there are planets, and never clears it. |
| `EarlyManager.GameManager.AdvancePlanets` | Assets/Scripts/GameManager.cs:39-45 | Every planet advances exactly once: its phase follows `Phase.Advance`, its position is the orbit point at the new phase, and its orbit fields are unchanged. |
| `EarlyManager.GameManager.Update` | Assets/Scripts/GameManager.cs:37-62 | While simulating, every planet advances and nothing is regenerated. When not simulating, no planet is changed, and when generating the planets are replaced and generating is cleared. |
| `System.InitFocusIsCenterOfMass` | Scripts/Body.cs:53-54 | For a record placed by the shared-focus rule, the foci[0] that `Init` computes is the center of mass. |
| `System.FocusOfPlacedCenter` | Scripts/NBodySystemGenerator.cs:149 | With center = p + (com - p) / (1 + e), the point center - (p - center) e is com. |
| `System.LaidOutOrbitsShareFocus` | Scripts/NBodySystemGenerator.cs:148-152 | Every laid-out body, initialised by the later `Body.Init`, has the system's center of mass as its foci[0]. |
| `System.RecordStartsOnOrbit` | Scripts/Body.cs:164-167 | A record that shares the focus com and is tilted around com has its position as the orbit point at phase 0, for any semi-minor axis. |
| `System.InitStartsOnOrbit` | Scripts/Body.cs:36-58 | A body in the state `Init` leaves for such a record has `computeFixedOrbitPosition(0)` equal to its position. |
| `System.LaidOutBodiesStartOnOrbit` | Scripts/NBodySystemGenerator.cs:99-152 | Every laid-out record starts on its orbit at phase 0. |
| `EarlySystem.RecordStartsOnOrbit` | Assets/Scripts/Body.cs:91-94 | A record that shares the focus com and is tilted around com has its position as the earlier orbit point at phase 0. |
| `EarlySystem.InitStartsOnOrbit` | Assets/Scripts/Body.cs:28-43 | A body in the state `init` leaves for such a record has `computeFixedOrbitPosition(0)` equal to its position. |
| `EarlySystem.InitFocusIsCenterOfMass` | Assets/Scripts/Body.cs:38-42 | For such a record, ellipseCenter + foci[0] is the center of mass. |
| `EarlySystem.EarlyLaidOutBodiesStartOnOrbit` | Assets/Scripts/NBodySystemGenerator.cs:91-127 | Every record of the earlier layout starts on its orbit at phase 0, and its first focus is the system's center of mass. |

## Left out

- Unity object plumbing is engine calls, not layout logic, and is not modelled:
  - `Instantiate`, `GetComponent`, `GameObject.Find`, `FindObjectOfType`, `Destroy` of the old planets;
  - the `instance` singleton;
  - the camera's `ScreenToWorldPoint` world size, which is a parameter.
- Rendering is drawing only and is not modelled: `OnRenderObject`, `OnDrawGizmos`, materials, colours and the orbit polyline.
- Camera zoom (`orthographicSize`), the canvas toggle and `Application.Quit` act only on the engine. Only the `scale` value that zoom changes is modelled.
- Key presses arrive as a `Keys` value per frame. `Time.deltaTime` is a parameter and is not scaled by `timeScale`.
- Random draws are inputs: `Random.Range` is a fraction, `insideUnitCircle` is a point in [-1, 1]^2, and `ColorHSV` is used only for gizmos.
- Floating-point rounding, NaN and infinities are not modelled, because reals are used throughout. `Phase.Pi` is the single-precision value of `Mathf.PI` written as a real.
- `Generator.SystemGenerator.Generate`: replaces the unbounded do-while with a scan over a supplied finite sequence of attempts. When none is apart it reports failure, where the source would keep drawing.
- `EarlyGenerator.EarlySystemGenerator.Generate`: the same finite scan replaces its do-while.
- `Layout.CenterOfMass`: with a zero total mass the source divides by zero; the model returns the zero vector. The lemmas that depend on it require positive masses.
- `Layout.CenteringShiftsCenterOfMass`: holds only when the masses do not sum to zero, which `SettingsOk` ensures for drawn masses.
- `Generator.EccentricityCap`: a body exactly at the center of mass would make the source divide by zero; the model then keeps maxEccentricity.
- `Generator.BodyRecord`: requires maxEccentricity > -1 so that 1 + e is never zero. The shared-focus lemmas also require maxEccentricity >= 0, and all generator members require non-negative radii.
- `Orbit.Body.Init`: Scripts/Body.cs:39 reads `bodyData.name` and Scripts/Body.cs:47 reads `bodyData.centerOfMass`, neither of which `BodyData` declares.
  - The game object's name is not modelled.
  - The center of mass is an extra parameter.
- `Generator.PlaceBodies`: the later generator ends with a six-argument `init` that the later `Body` does not declare (Scripts/NBodySystemGenerator.cs:152). The model returns the six values as `BodyData` records, and `System` feeds them to `Body.Init`.
- `Manager.Truncate`: overflow of the `(int)` cast on out-of-range floats is not modelled.
- `Manager.GameManager.Update` and `EarlyManager.GameManager.Update`: the generator's output is the `generated` parameter, and the old planets are not destroyed.
- The empty `Update` and `FixedUpdate` bodies of `Body` and `NBodySystemGenerator`, the gizmo colour and the `aspect` field hold no logic.
- The center of mass stored in each later `Body` is written by `Init` (Scripts/Body.cs:47) and never read.
