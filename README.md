# Wind-turbine demo: verified model of its arithmetic and its rotation animator

The site is an educational wind-turbine demo. Its front end shows a fleet of
five turbines whose rotors spin and whose power readouts follow a wind-speed
slider, plus a design page with blade-count formulas and a power-curve table.
Its back end computes turbine physics (swept area, power in the wind, delivered
power, rotor speed) and two component checks: the soft-stiff tower band and a
Jensen wake deficit. This project models that logic in Dafny, over `real`:

- `common.dfy` (module `Common`): `Option`, a `Result` whose errors are the
  Python exceptions the back end can raise (`ZeroDivision`, `MathDomain`),
  JavaScript's `% 360` (a truncated remainder, `JsRem360`) next to the
  floor-based residue (`FloorMod360`), `Math.round` (`JsRound`), the value
  of π, and `IsSqrt`, the property the model needs of `math.sqrt`.
- `fleet.dfy` (module `FleetPage`, from `frontend/src/app/page.tsx`): the
  wind→RPM and wind→power curves, the fleet-power `reduce`, the per-card
  power, and the animation loop's state as a class `Animator` with
  `angles: array<real>` (length 5) and `lastTime: Option<real>`. Its
  method `Frame(time, rpm)` is one `requestAnimationFrame` callback. Its
  method `Stop()` is the effect cleanup.
- `subsystems.dfy` (module `Subsystems`, from `frontend/src/data/subsystems.ts`):
  the subsystem lookup, the blade-count formulas and `generatePowerCurve`.
- `physics.dfy` (module `Physics`, from `backend/app/services/physics.py`).
- `components.dfy` (module `Components`, from `backend/app/services/components.py`).

Modelling choices:
- Python raises an exception for division by zero and for `math.sqrt` of a
  negative number. These become `Err` results, not preconditions.
- The model has no `requires` that excludes an input the code accepts. The
  exception is `IsSqrt`, which describes `math.sqrt` itself.
- `math.sqrt` is a parameter `sqrt: real -> real` of the wake formula. It
  must satisfy `IsSqrt`: a non-negative result whose square is the argument.
- π is the literal 3.141592653589793. No proof relies on more than π > 0.
- Values are stated before any `toFixed`, `round(…, n)` or
  `parseFloat(…toFixed(3))` formatting.

## Behaviour the model keeps

- Teardown clears only the previous timestamp. It leaves the rotor angles
  as they are (`frontend/src/app/page.tsx:129-132`).
- The five rotors start at 0, 24, 48, 72 and 96 degrees.
- Each rotor keeps its own angle and advances at its own multiplier.
- A change of `rpm` re-creates `animate`. That re-runs the effect, so the
  cleanup clears the timestamp and the next frame is a skip frame.
  `FleetPage.RestartScenario` shows this sequence on the class.
- The back-end turbine's physics columns come from the migration
  `backend/alembic/versions/b2c3d4e5f6a7_add_physics_fields_and_parameter_table.py`.
  The `Turbine` class in `backend/app/models/turbine.py` does not declare them.

## Model

| member | source | states |
|---|---|---|
| `FleetPage.WindToRpm` | frontend/src/app/page.tsx:12-16 | The result is in [0, 14.9]. It is 0 for wind ≤ 0 and exactly 14.9 for wind ≥ 13. In between it is the linear ramp `rpm·13 = wind·14.9`. |
| `FleetPage.WindToRpmMonotone` | frontend/src/app/page.tsx:12-16 | A faster wind never gives a lower RPM. |
| `FleetPage.WindToPowerMW` | frontend/src/app/page.tsx:18-23 | The result is in [0, 2]. It is 0 below 4 m/s and exactly 2 from 13 m/s on. In between it is `2·f³` with `f = (wind−4)/9`. |
| `FleetPage.WindToPowerMonotone` | frontend/src/app/page.tsx:18-23 | The power curve is non-decreasing in wind. |
| `FleetPage.WindToPowerStrictlyIncreasing` | frontend/src/app/page.tsx:18-23 | The power curve is strictly increasing on [4, 13]. |
| `FleetPage.CubeStrictlyMonotone` | frontend/src/app/page.tsx:22 | The cube of the ramp fraction keeps strict order on non-negative numbers. |
| `FleetPage.ReduceScaled` | frontend/src/app/page.tsx:107 | The `reduce` adds `powerMW · Σ multipliers` to its seed, for every sequence of multipliers. |
| `FleetPage.MultiplierSum` | frontend/src/app/page.tsx:35 | The five multipliers sum to 4.98. |
| `FleetPage.FleetPowerMW` | frontend/src/app/page.tsx:107 | Fleet power is `4.98 · powerMW`, and it is 0 exactly when `powerMW` is 0. |
| `FleetPage.FleetPowerForWind` | frontend/src/app/page.tsx:105-107 | Fleet power for a wind speed is in [0, 9.96]. It is 0 exactly when wind ≤ 4. |
| `FleetPage.CardPowerMW` | frontend/src/app/page.tsx:318-321 | For non-negative power, a card shows between 0 and 1.2 times the single-turbine power. |
| `FleetPage.CardRow` | frontend/src/app/page.tsx:318-321 | Five cards. Slot `4 − idx`, counted from the left, shows turbine `idx`'s power, so T-05 comes first and T-01 last. |
| `FleetPage.CardsSumToFleetPower` | frontend/src/app/page.tsx:318-321 | The five card values add up to the fleet power displayed below them. |
| `FleetPage.RotorStepNonNegative` | frontend/src/app/page.tsx:114 | For a non-negative angle and advance, `% 360` equals the floor-based residue, which lies in [0, 360). |
| `FleetPage.RotorStep` | frontend/src/app/page.tsx:114 | A rotor's new angle names the same direction as `angle + dps·dt·mult`, since the two differ by whole turns. It lies in [0, 360) when the unreduced angle is non-negative, and in (−360, 0] when it is negative. |
| `FleetPage.RotorStepStill` | frontend/src/app/page.tsx:114 | With no elapsed time, an angle in [0, 360) is left where it is. |
| `FleetPage.AdvanceAngles` | frontend/src/app/page.tsx:111-115 | Five new angles. Angle i differs from `angle_i + dps·dt·mult_i` by whole turns. It lies in [0, 360) when that sum is non-negative, and in (−360, 0] when it is negative. |
| `FleetPage.FrameAngles` | frontend/src/app/page.tsx:109-115 | Five angles. A frame without a previous timestamp rotates nothing. So does a frame at the previous frame's timestamp, when the angles lie in [0, 360). |
| `FleetPage.AdvanceKeepsRange` | frontend/src/app/page.tsx:111-115 | At non-negative speed and elapsed time, every new angle is `(angle_i + dps·dt·mult_i)` reduced through `Floor`. Every angle stays in [0, 360). |
| `FleetPage.FrameKeepsRange` | frontend/src/app/page.tsx:109-115 | A frame later than the previous one, with rpm ≥ 0, keeps all five angles in [0, 360). |
| `FleetPage.Animator.constructor` | frontend/src/app/page.tsx:100-102 | The angles start as [0, 24, 48, 72, 96], the array has length 5, and there is no previous timestamp. |
| `FleetPage.Animator.Frame` | frontend/src/app/page.tsx:109-125 | With no previous timestamp the angles are unchanged. Otherwise each of the five angles becomes `(angle_i + rpm·6·((time−t0)/1000)·mult_i) % 360`. In both cases `lastTime := time`, and only the five entries and `lastTime` change. |
| `FleetPage.Animator.Stop` | frontend/src/app/page.tsx:129-132 | Teardown clears `lastTime` to null and leaves the angles as they were. |
| `FleetPage.RestartScenario` | frontend/src/app/page.tsx:125-133 | First frame: nothing rotates. Second frame: one advance, with angles in [0, 360). After a stop and restart, with any new rpm and any pause length, the first frame rotates nothing. |
| `Common.JsRem360NonNegative` | frontend/src/app/page.tsx:114 | For x ≥ 0, JavaScript's `x % 360` equals `x − 360·⌊x/360⌋` and lies in [0, 360). |
| `Common.JsRem360` | frontend/src/app/page.tsx:114 | `x % 360` differs from x by whole turns. It lies in [0, 360) for x ≥ 0 and in (−360, 0] for x < 0, so a backward time step can leave [0, 360). |
| `Common.JsRoundOfInteger` | frontend/src/data/subsystems.ts:37 | `Math.round` leaves integers unchanged. |
| `Common.JsRound` | frontend/src/data/subsystems.ts:37 | `Math.round(x)` is the integer r with `x − 0.5 < r ≤ x + 0.5`. Halves round up. |
| `Common.SqrtUnitInterval` | backend/app/services/components.py:87 | The square root of a number in [0, 1] lies in [0, 1], and the square root of 1 is 1. |
| `Subsystems.GetSubsystem` | frontend/src/data/subsystems.ts:7-14 | Corrected lookup over own entries only. There is a value exactly for "blades" and "drivetrain"; that value carries the id and is interactive. |
| `Subsystems.GetSubsystemAsWritten` | frontend/src/data/subsystems.ts:12-14 | Indexing as written, prototype chain included. An own entry found carries its id. |
| `Subsystems.AsWrittenAcceptsInheritedKey` | frontend/src/data/subsystems.ts:12-14 | For "toString" the as-written lookup is truthy but returns no subsystem. The corrected lookup returns nothing. |
| `Subsystems.AsWrittenAgreesElsewhere` | frontend/src/data/subsystems.ts:12-14 | On every id that is not an `Object.prototype` member, both lookups agree. |
| `Subsystems.CalcWeight` | frontend/src/data/subsystems.ts:16-19 | The weight is 20 t exactly at 3 blades, and more than 20 t exactly for more blades. |
| `Subsystems.WeightFacts` | frontend/src/data/subsystems.ts:16-19 | Weight is 20 t at 3 blades and adds 2.5 t per blade. It is strictly increasing. |
| `Subsystems.CalcCost` | frontend/src/data/subsystems.ts:22-25 | The cost is 1200k exactly at 3 blades, and above 1200k exactly for more blades. |
| `Subsystems.CostFacts` | frontend/src/data/subsystems.ts:22-25 | Cost is 1200k at 3 blades and adds exactly 60k per blade. It is strictly increasing. |
| `Subsystems.Scale` | frontend/src/data/subsystems.ts:30 | The scale is at most 1, and equals 1 exactly at 3 blades. |
| `Subsystems.CalcAvgOutput` | frontend/src/data/subsystems.ts:28-32 | Average output is at most 2 MW, and equals 2 MW exactly at 3 blades. |
| `Subsystems.AvgOutputSymmetric` | frontend/src/data/subsystems.ts:28-32 | Average output is symmetric about 3 blades. |
| `Subsystems.AvgOutputDecreasesAwayFromThree` | frontend/src/data/subsystems.ts:28-32 | Deviation from three blades reduces output: a count further from 3 gives strictly less. |
| `Subsystems.AvgOutputMatchesEfficiency` | frontend/src/data/subsystems.ts:28-38 | For a whole blade count k, the average output is 2 MW times the efficiency percentage, that is `2 − 0.12·|k−3|`, a 6 % drop per blade. |
| `Subsystems.CalcEfficiency` | frontend/src/data/subsystems.ts:35-38 | The efficiency never exceeds 100 %, and is exactly 100 % at 3 blades. |
| `Subsystems.EfficiencyOfWholeBlades` | frontend/src/data/subsystems.ts:35-38 | For a whole blade count k, efficiency is exactly `100 − 6·|k−3|`. |
| `Subsystems.EfficiencySymmetric` | frontend/src/data/subsystems.ts:35-38 | Efficiency is 100 at 3 blades and symmetric about 3. |
| `Subsystems.CurvePower` | frontend/src/data/subsystems.ts:51-57 | The power is 0 below cut-in and `2·scale` from rated wind on. For a non-negative scale it always lies in [0, 2·scale]. |
| `Subsystems.CurvePowerIsScaledPagePower` | frontend/src/data/subsystems.ts:48-57 | At every wind speed the design-page curve is `scale ·` the home page's `windToPowerMW`. |
| `Subsystems.GeneratePowerCurve` | frontend/src/data/subsystems.ts:45-50 | The table has exactly 26 entries, and entry i has wind i. |
| `Subsystems.PowerCurveEntryIsScaled` | frontend/src/data/subsystems.ts:49-58 | Entry i's power is `Scale(n) · windToPowerMW(i)`. |
| `Subsystems.PowerCurveEntry` | frontend/src/data/subsystems.ts:51-57 | Entry i's power is 0 for i < 4 and `2·scale` for i ≥ 13. In between it is `2·scale·f³`. For n = 3 it equals `windToPowerMW(i)`. |
| `Subsystems.CurvePowerMonotone` | frontend/src/data/subsystems.ts:51-57 | With a non-negative scale, the curve never decreases with wind. |
| `Subsystems.PowerCurveNonDecreasing` | frontend/src/data/subsystems.ts:49-58 | With a non-negative scale, the table's power never decreases along its entries. |
| `Physics.SweptAreaM2` | backend/app/services/physics.py:5-6 | Swept area is never negative, and positive for every non-zero diameter. |
| `Physics.SweptAreaUnitDisc` | backend/app/services/physics.py:5-6 | A diameter of 2 sweeps exactly π. Together with `SweptAreaQuadratic`, this fixes the area as π(d/2)². |
| `Physics.SweptAreaQuadratic` | backend/app/services/physics.py:5-6 | Scaling the diameter by c scales the area by c². |
| `Physics.WindPowerMW` | backend/app/services/physics.py:9-12 | There is no power in still air. For density ≥ 0 and wind ≥ 0 the power in the wind is ≥ 0. |
| `Physics.WindPowerCubic` | backend/app/services/physics.py:9-12 | Power in the wind scales with the cube of wind speed. |
| `Physics.ActualPowerMW` | backend/app/services/physics.py:15-23 | The result is 0 below cut-in, and 0 at or above cut-out even above rated. In between it is `min(wind_power·Cp, capacity)` and never above capacity. For a non-negative capacity it never exceeds capacity at all. |
| `Physics.ActualPowerInRange` | backend/app/services/physics.py:15-23 | With non-negative wind, density, Cp and capacity, delivered power lies in [0, capacity]. |
| `Physics.RotorRpm` | backend/app/services/physics.py:26-32 | The result is 0 for wind ≤ 0, whatever the diameter. For positive wind it satisfies `rpm·π·D = tsr·v·60`, and a zero diameter gives ZeroDivisionError. |
| `Physics.RotorRpmProportional` | backend/app/services/physics.py:26-32 | For positive wind, rotor speed is proportional to wind speed. |
| `Physics.Compute` | backend/app/services/physics.py:35-45 | It fails exactly when `rotor_rpm` fails: positive wind with a zero diameter. Otherwise: the wind speed is echoed; `power_mw` is `actual_power_mw`; the available power is `wind_power_mw`; `rotor_rpm` is `rotor_rpm`; the swept area is `swept_area_m2(D)`; and `tip_speed = tsr·v`. For positive wind, the tip speed also equals `rpm·π·D/60`. |
| `Components.OneP` | backend/app/services/components.py:62-63 | 1P satisfies `1P·π·D = tsr·v`, and is 0 in calm air. A zero diameter gives ZeroDivisionError. |
| `Components.TowerFrequencyCheck` | backend/app/services/components.py:55-73 | `three_p = 3·one_p`, the tower's frequency is echoed, `margin_to_1p = fn − one_p` and `margin_to_3p = three_p − fn`. `is_soft_stiff` holds exactly when `one_p < fn < three_p`, which is exactly when both margins are positive; it implies `one_p > 0`. A zero diameter gives ZeroDivisionError. |
| `Components.CalmIsNeverSoftStiff` | backend/app/services/components.py:62-70 | At zero wind, `one_p = three_p = 0` and the tower is not soft-stiff. |
| `Components.OnePIsRotorSpeed` | backend/app/services/components.py:62-63 | For positive wind and a non-zero diameter, 1P in Hz times 60 is the back end's `rotor_rpm`. |
| `Components.WakeDeficit` | backend/app/services/components.py:76-94 | Ct > 1 gives ValueError. Otherwise `D + 2kx = 0` gives ZeroDivisionError. Otherwise wind speed and distance are echoed, the deficit is `(1−√(1−Ct))·(D/(D+2kx))²`, and wake speed is `V∞·(1 − deficit)`. |
| `Components.NoThrustNoDeficit` | backend/app/services/components.py:87-88 | With Ct = 0 the deficit is 0 and the wake speed is the free-stream speed. |
| `Components.ExpansionInUnitInterval` | backend/app/services/components.py:87 | For D > 0, k ≥ 0 and x ≥ 0, `(D/(D+2kx))²` lies in (0, 1]. |
| `Components.WakeSpeedBounded` | backend/app/services/components.py:87-88 | For 0 ≤ Ct ≤ 1, D > 0, k ≥ 0, x ≥ 0 and V∞ ≥ 0: the deficit is in [0, 1] and the wake speed is in [0, V∞]. |
| `Components.ExpansionNonIncreasing` | backend/app/services/components.py:87 | For D > 0 and k > 0, the expansion factor never grows with distance. |
| `Components.DeficitNonIncreasing` | backend/app/services/components.py:87 | For 0 ≤ Ct ≤ 1, D > 0 and k > 0, the deficit factor never grows with downstream distance. |

## Left out

- Formatting: `toFixed`, `round(…, n)`, `parseFloat(…toFixed(3))` and the
  string results of the `calc*` helpers are IEEE float formatting. The model
  gives the unrounded real values and proves properties before rounding.
- Subsystems.GeneratePowerCurve: entry powers are not rounded to three decimals.
- Components.TowerFrequencyCheck: `one_p_hz`, `three_p_hz` and the two
  margins are not rounded to four decimals.
- Components.WakeDeficit: the wake speed and the deficit fraction are not
  rounded. `math.sqrt` is a parameter described by `IsSqrt`, not the IEEE
  square root.
- Components.DeficitNonIncreasing: stated for 0 ≤ Ct ≤ 1, not Ct ≤ 1. For a
  negative Ct the factor `1 − √(1−Ct)` is negative, so the deficit rises
  toward 0 with distance.
- FleetPage.Animator.Frame: the source builds a new five-element array with
  `map` each frame. The model overwrites the five entries of one array in
  place. No other code holds the old array, so what can be observed is the same.
- Floating point: NaN, infinities, overflow and rounding of `+`, `*`, `/`
  are not modelled; all arithmetic is exact over `real`.
- Scheduling: `requestAnimationFrame`, `cancelAnimationFrame` and the
  timestamps are host calls. The timestamp is a parameter of `Frame`, and
  cancelling the pending callback is the call to `Stop`.
- Rendering: applying the angles as SVG `transform` attributes is left out.
  So are the skipping of missing SVG groups, the particles, and the turbine
  card bar height and colour.
- The debounced `PATCH` of fleet power (`frontend/src/app/page.tsx:135-144`)
  is left out. It is a timer plus a fire-and-forget network call.
- `yaw_power_loss` uses `math.cos`/`math.radians`. Trigonometry is not modelled.
- The blade and mountain SVG geometry in `page.tsx` uses `Math.cos`/`Math.sin`.
  Trigonometry is not modelled.
- The CRUD getters in `backend/app/services/components.py:14-39` and
  `backend/app/services/turbine.py`, their HTTP 404 paths, the routers,
  `main.py`, the SQLModel sessions, the migrations and the schemas are
  database and HTTP plumbing.
- `Tower` and `WakeModel` are reduced to the columns the formulas read.
- `Turbine` keeps the physics columns of the migration. `hubHeightM` and
  `ratedWindSpeedMps` are carried along, but no modelled formula reads them.
- The story slideshow player (`frontend/src/app/stories/[id]/StoryPlayer.tsx`)
  is not part of this model, because it lies outside the four modelled files.
  The same holds for the airfoil lift and blade-section formulas of
  `frontend/src/app/design/[subsystemId]/detail/BladeDetail.tsx`.
- Static content (`frontend/src/data/stories.ts`) and the API wrappers
  (`frontend/src/lib/api.ts`) are not part of this model.
- The React context (`WindSpeedContext.tsx`) is not part of this model.

## Findings

| source | as written | input that shows it | evidently intended | confidence | as-written member | corrected member |
|---|---|---|---|---|---|---|
| frontend/src/data/subsystems.ts:12-14 | `SUBSYSTEMS[id]` indexes a plain object literal, so the lookup also finds members inherited from `Object.prototype` | id `"toString"` yields a truthy function. So `/design/toString` passes `if (!subsystem) notFound()` and renders a "Coming soon" page with an undefined label. | a value only for `"blades"` and `"drivetrain"` and `undefined` for every other id, as the return type `Subsystem \| undefined` says | not executed; high | `Subsystems.AsWrittenAcceptsInheritedKey` | `Subsystems.GetSubsystem` |
