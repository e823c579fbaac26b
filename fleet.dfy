/** The home page of the site: a fleet of five turbines whose rotation speed and
    power follow a wind-speed slider (frontend/src/app/page.tsx). */
module FleetPage {
  import opened Common

  const RATED_WIND: real := 13.0
  const MAX_RPM: real := 14.9
  const CUT_IN_WIND: real := 4.0
  const RATED_POWER_MW: real := 2.0

  /** Relative rotation speed (and share of power) of turbines T-01 .. T-05. */
  const RPM_MULTIPLIERS: seq<real> := [1.20, 1.08, 1.00, 0.90, 0.80]

  /** Number of turbines drawn on the page. */
  const FLEET_SIZE: nat := 5

  /** Rotor speed for a wind speed: zero in calm or negative wind, a linear
      ramp up to the rated wind, and the maximum speed from there on. */
  function WindToRpm(wind: real): (rpm: real)
    ensures 0.0 <= rpm <= MAX_RPM
    ensures wind <= 0.0 ==> rpm == 0.0
    ensures wind >= RATED_WIND ==> rpm == MAX_RPM
    ensures 0.0 < wind < RATED_WIND ==> rpm * RATED_WIND == wind * MAX_RPM
  {
    if wind <= 0.0 then 0.0
    else if wind >= RATED_WIND then MAX_RPM
    else (wind / RATED_WIND) * MAX_RPM
  }

  /** A faster wind never slows the rotor. */
  lemma WindToRpmMonotone(w1: real, w2: real)
    requires w1 <= w2
    ensures WindToRpm(w1) <= WindToRpm(w2)
  {
  }

  /** The fraction of the way from cut-in to rated wind. */
  function RampFraction(wind: real): real
  {
    (wind - CUT_IN_WIND) / (RATED_WIND - CUT_IN_WIND)
  }

  /** Cubing preserves order on non-negative numbers, strictly:
      `b³ - a³ = (b - a)(b² + ab + a²)` and both factors are positive. */
  lemma CubeStrictlyMonotone(a: real, b: real)
    requires 0.0 <= a < b
    ensures Cube(a) < Cube(b)
  {
    QuadraticFactorPositive(a, b);
    MulPositive(b - a, b * b + a * b + a * a);
    CubeDifference(a, b);
  }

  lemma QuadraticFactorPositive(a: real, b: real)
    requires 0.0 <= a < b
    ensures b * b + a * b + a * a > 0.0
  {
    assert b * b > 0.0;
    assert a * b >= 0.0;
    assert a * a >= 0.0;
  }

  lemma CubeDifference(a: real, b: real)
    ensures Cube(b) - Cube(a) == (b - a) * (b * b + a * b + a * a)
  {
  }

  /** Cubes of numbers in [0, 1] stay in [0, 1]. */
  lemma CubeUnitInterval(f: real)
    requires 0.0 <= f <= 1.0
    ensures 0.0 <= Cube(f) <= 1.0
  {
    assert f * f <= 1.0 by { assert f * f <= f * 1.0; }
    assert f * f * f <= f * f * 1.0;
  }

  /** Electrical power of one turbine (of the T-03 size) for a wind speed:
      nothing below cut-in, a cubic ramp to rated power, rated power from the
      rated wind on. */
  function WindToPowerMW(wind: real): (mw: real)
    ensures 0.0 <= mw <= RATED_POWER_MW
    ensures wind < CUT_IN_WIND ==> mw == 0.0
    ensures wind >= RATED_WIND ==> mw == RATED_POWER_MW
    ensures CUT_IN_WIND <= wind < RATED_WIND ==> mw == RATED_POWER_MW * Cube(RampFraction(wind))
  {
    if wind < CUT_IN_WIND then 0.0
    else if wind >= RATED_WIND then RATED_POWER_MW
    else
      var fraction := RampFraction(wind);
      CubeUnitInterval(fraction);
      RATED_POWER_MW * fraction * fraction * fraction
  }

  /** The power curve is non-decreasing in wind speed. */
  lemma WindToPowerMonotone(w1: real, w2: real)
    requires w1 <= w2
    ensures WindToPowerMW(w1) <= WindToPowerMW(w2)
  {
    if CUT_IN_WIND <= w1 < w2 < RATED_WIND {
      CubeStrictlyMonotone(RampFraction(w1), RampFraction(w2));
    }
  }

  /** Between cut-in and rated wind the power curve is strictly increasing. */
  lemma WindToPowerStrictlyIncreasing(w1: real, w2: real)
    requires CUT_IN_WIND <= w1 < w2 <= RATED_WIND
    ensures WindToPowerMW(w1) < WindToPowerMW(w2)
  {
    if w2 < RATED_WIND {
      CubeStrictlyMonotone(RampFraction(w1), RampFraction(w2));
    } else {
      CubeStrictlyMonotone(RampFraction(w1), 1.0);
    }
  }

  /** The sum of a sequence of multipliers. */
  function Sum(ms: seq<real>): real
  {
    if ms == [] then 0.0 else ms[0] + Sum(ms[1..])
  }

  /** `ms.reduce((sum, m) => sum + powerMW * m, acc)`: a left fold. It adds
      `powerMW` times the sum of the multipliers to its seed. */
  function ReduceScaled(powerMW: real, ms: seq<real>, acc: real): (r: real)
    ensures r == acc + powerMW * Sum(ms)
  {
    if ms == [] then acc
    else
      var r := ReduceScaled(powerMW, ms[1..], acc + powerMW * ms[0]);
      assert powerMW * ms[0] + powerMW * Sum(ms[1..]) == powerMW * Sum(ms);
      r
  }

  /** The five multipliers add up to 4.98. */
  lemma MultiplierSum()
    ensures Sum(RPM_MULTIPLIERS) == 4.98
  {
    var m := RPM_MULTIPLIERS;
    assert m[4..][1..] == [];
    assert m[3..][1..] == m[4..];
    assert m[2..][1..] == m[3..];
    assert m[1..][1..] == m[2..];
    assert Sum(m[4..]) == 0.80;
    assert Sum(m[3..]) == 1.70;
    assert Sum(m[2..]) == 2.70;
    assert Sum(m[1..]) == 3.78;
  }

  /** Power of the whole fleet shown under the turbines: 4.98 times the
      single-turbine power, and hence zero exactly when that power is zero. */
  function FleetPowerMW(powerMW: real): (mw: real)
    ensures mw == 4.98 * powerMW
    ensures mw == 0.0 <==> powerMW == 0.0
  {
    MultiplierSum();
    ReduceScaled(powerMW, RPM_MULTIPLIERS, 0.0)
  }

  /** Fleet power for a wind speed lies in [0, 4.98 * 2.0] and is zero
      exactly below the cut-in wind. */
  lemma FleetPowerForWind(wind: real)
    ensures 0.0 <= FleetPowerMW(WindToPowerMW(wind)) <= 4.98 * RATED_POWER_MW
    ensures FleetPowerMW(WindToPowerMW(wind)) == 0.0 <==> wind <= CUT_IN_WIND
  {
    if CUT_IN_WIND < wind < RATED_WIND {
      CubeStrictlyMonotone(0.0, RampFraction(wind));
    }
  }

  /** Power shown on the card of turbine `idx` (0 is T-01). */
  function CardPowerMW(powerMW: real, idx: nat): (mw: real)
    requires idx < FLEET_SIZE
    ensures powerMW >= 0.0 ==> 0.0 <= mw <= 1.2 * powerMW
  {
    powerMW * RPM_MULTIPLIERS[idx]
  }

  /** The cards in screen order, left to right: T-05 first, T-01 last. */
  function CardRow(powerMW: real): (row: seq<real>)
    ensures |row| == FLEET_SIZE
    ensures forall idx :: 0 <= idx < FLEET_SIZE ==> row[FLEET_SIZE - 1 - idx] == CardPowerMW(powerMW, idx)
  {
    seq(FLEET_SIZE, i requires 0 <= i < FLEET_SIZE => CardPowerMW(powerMW, FLEET_SIZE - 1 - i))
  }

  /** The card values add up to the fleet power displayed below them. */
  lemma CardsSumToFleetPower(powerMW: real)
    ensures Sum(CardRow(powerMW)) == FleetPowerMW(powerMW)
  {
    var row := CardRow(powerMW);
    assert row[4..][1..] == [];
    assert row[3..][1..] == row[4..];
    assert row[2..][1..] == row[3..];
    assert row[1..][1..] == row[2..];
    assert row[0] == CardPowerMW(powerMW, 4) && RPM_MULTIPLIERS[4] == 0.80;
    assert row[1] == CardPowerMW(powerMW, 3) && RPM_MULTIPLIERS[3] == 0.90;
    assert row[2] == CardPowerMW(powerMW, 2) && RPM_MULTIPLIERS[2] == 1.00;
    assert row[3] == CardPowerMW(powerMW, 1) && RPM_MULTIPLIERS[1] == 1.08;
    assert row[4] == CardPowerMW(powerMW, 0) && RPM_MULTIPLIERS[0] == 1.20;
    assert Sum(row[4..]) == powerMW * 1.20;
    assert Sum(row[3..]) == powerMW * 1.08 + powerMW * 1.20;
    assert Sum(row[2..]) == powerMW * 1.00 + powerMW * 1.08 + powerMW * 1.20;
    assert Sum(row[1..]) == powerMW * 0.90 + powerMW * 1.00 + powerMW * 1.08 + powerMW * 1.20;
    assert FleetPowerMW(powerMW) == 4.98 * powerMW;
  }

  const INITIAL_ANGLES: seq<real> := [0.0, 24.0, 48.0, 72.0, 96.0]

  /** One rotor's new angle: `(angle + dps * dt * multiplier) % 360`. It names
      the same direction as the unreduced angle and lies in [0, 360) when
      that angle is non-negative, in (-360, 0] when it is negative. */
  function RotorStep(angle: real, dps: real, dt: real, multiplier: real): (r: real)
    ensures IsWholeTurns(angle + dps * dt * multiplier - r)
    ensures -360.0 < r < 360.0
    ensures angle + dps * dt * multiplier >= 0.0 ==> 0.0 <= r < 360.0
    ensures angle + dps * dt * multiplier < 0.0 ==> -360.0 < r <= 0.0
  {
    JsRem360(angle + dps * dt * multiplier)
  }

  /** Angles of the five rotors after one frame with elapsed `dt` seconds at
      `dps` degrees per second: rotor `i` advances by `dps * dt` times its own
      multiplier, and the result is reduced with JavaScript's `% 360`. */
  function AdvanceAngles(angles: seq<real>, dps: real, dt: real): (next: seq<real>)
    requires |angles| == FLEET_SIZE
    ensures |next| == FLEET_SIZE
    ensures forall i :: 0 <= i < FLEET_SIZE ==>
      && IsWholeTurns(angles[i] + dps * dt * RPM_MULTIPLIERS[i] - next[i])
      && (angles[i] + dps * dt * RPM_MULTIPLIERS[i] >= 0.0 ==> 0.0 <= next[i] < 360.0)
      && (angles[i] + dps * dt * RPM_MULTIPLIERS[i] < 0.0 ==> -360.0 < next[i] <= 0.0)
  {
    seq(FLEET_SIZE, i requires 0 <= i < FLEET_SIZE =>
      RotorStep(angles[i], dps, dt, RPM_MULTIPLIERS[i]))
  }

  /** The angles after a frame at `time` (milliseconds), given the timestamp
      of the previous frame, if any. A frame with no previous timestamp does
      not rotate anything, nor does a frame at the same timestamp as the
      previous one when the angles are already reduced. */
  function FrameAngles(angles: seq<real>, lastTime: Option<real>, time: real, rpm: real): (next: seq<real>)
    requires |angles| == FLEET_SIZE
    ensures |next| == FLEET_SIZE
    ensures lastTime == None ==> next == angles
    ensures lastTime == Some(time) && AnglesInRange(angles) ==> next == angles
  {
    match lastTime
    case None => angles
    case Some(t0) =>
      var next := AdvanceAngles(angles, rpm * 6.0, (time - t0) / 1000.0);
      assert t0 == time && AnglesInRange(angles) ==> next == angles by {
        if t0 == time && AnglesInRange(angles) {
          forall i | 0 <= i < FLEET_SIZE
            ensures next[i] == angles[i]
          {
            RotorStepStill(angles[i], rpm * 6.0, RPM_MULTIPLIERS[i]);
          }
        }
      }
      next
  }

  /** With no elapsed time a reduced angle stays where it is. */
  lemma RotorStepStill(angle: real, dps: real, multiplier: real)
    requires 0.0 <= angle < 360.0
    ensures RotorStep(angle, dps, 0.0, multiplier) == angle
  {
    assert dps * 0.0 * multiplier == 0.0;
    assert Trunc(angle / 360.0) == 0;
  }

  ghost predicate AnglesInRange(angles: seq<real>)
  {
    forall i :: 0 <= i < |angles| ==> 0.0 <= angles[i] < 360.0
  }

  /** A forward step from a non-negative angle is the floor-based residue,
      which lies in [0, 360). */
  lemma RotorStepNonNegative(angle: real, dps: real, dt: real, multiplier: real)
    requires angle >= 0.0 && dps >= 0.0 && dt >= 0.0 && multiplier >= 0.0
    ensures RotorStep(angle, dps, dt, multiplier) == FloorMod360(angle + dps * dt * multiplier)
    ensures 0.0 <= RotorStep(angle, dps, dt, multiplier) < 360.0
  {
    assert dps * dt >= 0.0;
    assert dps * dt * multiplier >= 0.0;
    JsRem360NonNegative(angle + dps * dt * multiplier);
  }

  /** Advancing at a non-negative speed over a non-negative time keeps every
      angle in [0, 360), each one its predecessor advanced by
      dps * dt * multiplier and reduced modulo 360 through `Floor`. */
  lemma {:induction false} AdvanceKeepsRange(angles: seq<real>, dps: real, dt: real)
    requires |angles| == FLEET_SIZE && AnglesInRange(angles)
    requires dps >= 0.0 && dt >= 0.0
    ensures AnglesInRange(AdvanceAngles(angles, dps, dt))
    ensures forall i :: 0 <= i < FLEET_SIZE ==>
      AdvanceAngles(angles, dps, dt)[i] == FloorMod360(angles[i] + dps * dt * RPM_MULTIPLIERS[i])
  {
    forall i | 0 <= i < FLEET_SIZE
      ensures AdvanceAngles(angles, dps, dt)[i] == FloorMod360(angles[i] + dps * dt * RPM_MULTIPLIERS[i])
      ensures 0.0 <= AdvanceAngles(angles, dps, dt)[i] < 360.0
    {
      RotorStepNonNegative(angles[i], dps, dt, RPM_MULTIPLIERS[i]);
    }
  }

  /** A frame taken later than the previous one, at a non-negative rotor
      speed, keeps every angle in [0, 360). */
  lemma FrameKeepsRange(angles: seq<real>, t0: real, time: real, rpm: real)
    requires |angles| == FLEET_SIZE && AnglesInRange(angles)
    requires rpm >= 0.0 && time >= t0
    ensures AnglesInRange(FrameAngles(angles, Some(t0), time, rpm))
  {
    AdvanceKeepsRange(angles, rpm * 6.0, (time - t0) / 1000.0);
  }

  /** The rotation animator: the angles of the five rotors and the timestamp
      of the previous frame (null right after a start or restart). */
  class Animator {
    var angles: array<real>
    var lastTime: Option<real>

    ghost predicate Valid()
      reads this
    {
      angles.Length == FLEET_SIZE
    }

    /** The page mounts with the rotors at 0, 24, 48, 72 and 96 degrees and
        no previous frame. */
    constructor ()
      ensures Valid() && fresh(angles)
      ensures angles[..] == INITIAL_ANGLES && lastTime == None
    {
      angles := new real[FLEET_SIZE] [0.0, 24.0, 48.0, 72.0, 96.0];
      lastTime := None;
    }

    /** One animation frame at timestamp `time` with the current rotor speed. */
    method Frame(time: real, rpm: real)
      requires Valid()
      modifies this`lastTime, angles
      ensures Valid()
      ensures angles[..] == FrameAngles(old(angles[..]), old(lastTime), time, rpm)
      ensures lastTime == Some(time)
    {
      if lastTime.Some? {
        var dt := (time - lastTime.value) / 1000.0;
        var dps := rpm * 6.0;
        ghost var before := angles[..];
        var a := angles;
        for i := 0 to FLEET_SIZE
          invariant forall j :: 0 <= j < i ==> a[j] == AdvanceAngles(before, dps, dt)[j]
          invariant forall j :: i <= j < FLEET_SIZE ==> a[j] == before[j]
        {
          a[i] := RotorStep(a[i], dps, dt, RPM_MULTIPLIERS[i]);
        }
      }
      lastTime := Some(time);
    }

    /** Effect teardown: the frame loop is cancelled and the previous
        timestamp forgotten; the angles stay where they are. */
    method Stop()
      requires Valid()
      modifies this`lastTime
      ensures Valid() && lastTime == None
      ensures angles[..] == old(angles[..])
    {
      lastTime := None;
    }
  }

  /** A run of the page: first frame at `t0` (skipped), a second at `t1`,
      then a change of rotor speed, which tears the effect down and starts it
      again, and a frame at `t2` after the restart. The restart frame does not
      rotate, however long the pause was. */
  method RestartScenario(t0: real, t1: real, t2: real, rpm: real, rpm2: real)
    returns (afterFirst: seq<real>, afterSecond: seq<real>, afterRestart: seq<real>)
    requires rpm >= 0.0 && t1 >= t0
    ensures afterFirst == INITIAL_ANGLES
    ensures afterSecond == AdvanceAngles(INITIAL_ANGLES, rpm * 6.0, (t1 - t0) / 1000.0)
    ensures AnglesInRange(afterSecond)
    ensures afterRestart == afterSecond
  {
    var animator := new Animator();
    animator.Frame(t0, rpm);
    afterFirst := animator.angles[..];
    animator.Frame(t1, rpm);
    afterSecond := animator.angles[..];
    FrameKeepsRange(INITIAL_ANGLES, t0, t1, rpm);
    animator.Stop();
    animator.Frame(t2, rpm2);
    afterRestart := animator.angles[..];
  }
}
