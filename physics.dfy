/** Turbine physics of the back end (backend/app/services/physics.py):
    swept area, power in the wind, delivered power and rotor speed. */
module Physics {
  import opened Common

  /** The physics columns of the `turbine` table. `hubHeightM` and
      `ratedWindSpeedMps` are stored but read by none of the formulas. */
  datatype Turbine = Turbine(
    capacityMw: real,
    rotorDiameterM: real,
    hubHeightM: real,
    cutInWindSpeedMps: real,
    ratedWindSpeedMps: real,
    cutOutWindSpeedMps: real,
    powerCoefficient: real,
    tipSpeedRatio: real,
    airDensityKgM3: real)

  /** Python's `x ** 2` on floats: never negative, and positive for non-zero `x`. */
  function Square(x: real): (s: real)
    ensures s >= 0.0
    ensures x != 0.0 ==> s > 0.0
  {
    Product(x, x)
  }

  /** Area swept by a rotor of diameter `d`: never negative, and positive for
      every rotor of non-zero diameter. */
  function SweptAreaM2(rotorDiameterM: real): (a: real)
    ensures a >= 0.0
    ensures rotorDiameterM != 0.0 ==> a > 0.0
  {
    var r := rotorDiameterM / 2.0;
    assert r != 0.0 ==> PI * Square(r) > 0.0 by {
      if r != 0.0 { MulPositive(PI, Square(r)); }
    }
    PI * Square(r)
  }

  /** A rotor of diameter 2 sweeps the unit disc. With `SweptAreaQuadratic`
      this fixes the area of every diameter `d` as `(d / 2)^2` times π. */
  lemma SweptAreaUnitDisc()
    ensures SweptAreaM2(2.0) == PI
  {
  }

  /** Scaling the diameter by `c` scales the swept area by `c * c`. */
  lemma SweptAreaQuadratic(d: real, c: real)
    ensures SweptAreaM2(c * d) == c * c * SweptAreaM2(d)
  {
    assert Square(c * d / 2.0) == (c * c) * Square(d / 2.0);
  }

  /** Power available in the wind, in MW, before the power coefficient: none
      in still air, and never negative for a non-negative density and wind. */
  function WindPowerMW(windSpeedMps: real, rotorDiameterM: real, airDensityKgM3: real): (p: real)
    ensures windSpeedMps == 0.0 ==> p == 0.0
    ensures airDensityKgM3 >= 0.0 && windSpeedMps >= 0.0 ==> p >= 0.0
  {
    var a := SweptAreaM2(rotorDiameterM);
    var p := 0.5 * airDensityKgM3 * a * Cube(windSpeedMps) / 1000000.0;
    assert airDensityKgM3 >= 0.0 && windSpeedMps >= 0.0 ==> p >= 0.0 by {
      if airDensityKgM3 >= 0.0 && windSpeedMps >= 0.0 {
        var v := windSpeedMps;
        NonNegativeProduct(v, v);
        NonNegativeProduct(v * v, v);
        NonNegativeProduct(0.5 * airDensityKgM3, a);
        NonNegativeProduct(0.5 * airDensityKgM3 * a, Cube(v));
      }
    }
    p
  }

  /** The power in the wind grows with the cube of the wind speed. */
  lemma WindPowerCubic(v: real, c: real, d: real, rho: real)
    ensures WindPowerMW(c * v, d, rho) == c * c * c * WindPowerMW(v, d, rho)
  {
    var k := 0.5 * rho * SweptAreaM2(d);
    assert Cube(c * v) == (c * c * c) * Cube(v);
    assert k * ((c * c * c) * Cube(v)) == (c * c * c) * (k * Cube(v));
  }

  function Min(a: real, b: real): real
  {
    if b < a then b else a
  }

  /** Delivered power: nothing below cut-in, nothing at or above cut-out
      (however far above rated the wind is), and otherwise the power in the
      wind times the power coefficient, capped at the nameplate capacity. */
  function ActualPowerMW(windSpeedMps: real, turbine: Turbine): (p: real)
    ensures windSpeedMps < turbine.cutInWindSpeedMps ==> p == 0.0
    ensures windSpeedMps >= turbine.cutOutWindSpeedMps ==> p == 0.0
    ensures turbine.cutInWindSpeedMps <= windSpeedMps < turbine.cutOutWindSpeedMps ==>
      p == Min(WindPowerMW(windSpeedMps, turbine.rotorDiameterM, turbine.airDensityKgM3)
                 * turbine.powerCoefficient, turbine.capacityMw)
      && p <= turbine.capacityMw
    ensures turbine.capacityMw >= 0.0 ==> p <= turbine.capacityMw
  {
    if windSpeedMps < turbine.cutInWindSpeedMps then 0.0
    else if windSpeedMps >= turbine.cutOutWindSpeedMps then 0.0
    else
      var a := SweptAreaM2(turbine.rotorDiameterM);
      var pMw := (0.5 * turbine.airDensityKgM3 * a * Cube(windSpeedMps) * turbine.powerCoefficient) / 1000000.0;
      assert pMw == WindPowerMW(windSpeedMps, turbine.rotorDiameterM, turbine.airDensityKgM3)
                      * turbine.powerCoefficient;
      Min(pMw, turbine.capacityMw)
  }

  /** With physical parameters (non-negative density, coefficient and
      capacity, non-negative wind) the delivered power lies in [0, capacity]. */
  lemma {:induction false} ActualPowerInRange(v: real, t: Turbine)
    requires v >= 0.0 && t.airDensityKgM3 >= 0.0 && t.powerCoefficient >= 0.0 && t.capacityMw >= 0.0
    ensures 0.0 <= ActualPowerMW(v, t) <= t.capacityMw
  {
    NonNegativeProduct(WindPowerMW(v, t.rotorDiameterM, t.airDensityKgM3), t.powerCoefficient);
  }

  /** Rotor speed in RPM from the tip-speed ratio: zero in calm or negative
      wind; otherwise the tip travels one rotor circumference per revolution.
      A zero diameter makes Python raise ZeroDivisionError. */
  function RotorRpm(windSpeedMps: real, turbine: Turbine): (r: Result<real>)
    ensures windSpeedMps <= 0.0 ==> r == Ok(0.0)
    ensures windSpeedMps > 0.0 ==> (r.Err? <==> turbine.rotorDiameterM == 0.0)
    ensures r.Err? ==> r.error == ZeroDivision
    ensures windSpeedMps > 0.0 && r.Ok? ==>
      r.value * PI * turbine.rotorDiameterM == turbine.tipSpeedRatio * windSpeedMps * 60.0
  {
    if windSpeedMps <= 0.0 then Ok(0.0)
    else
      var radius := turbine.rotorDiameterM / 2.0;
      var tipSpeed := turbine.tipSpeedRatio * windSpeedMps;
      var circumference := 2.0 * PI * radius;
      if circumference == 0.0 then Err(ZeroDivision)
      else
        var rpm := tipSpeed * 60.0 / circumference;
        assert rpm * circumference == tipSpeed * 60.0;
        Ok(rpm)
  }

  /** For positive winds the rotor speed is proportional to the wind speed. */
  lemma {:induction false} RotorRpmProportional(v: real, c: real, t: Turbine)
    requires v > 0.0 && c > 0.0 && t.rotorDiameterM != 0.0
    ensures RotorRpm(c * v, t).Ok? && RotorRpm(v, t).Ok?
    ensures RotorRpm(c * v, t).value == c * RotorRpm(v, t).value
  {
    var circumference := 2.0 * PI * (t.rotorDiameterM / 2.0);
    assert circumference != 0.0;
    assert c * v > 0.0;
    var slow := t.tipSpeedRatio * v * 60.0 / circumference;
    var fast := t.tipSpeedRatio * (c * v) * 60.0 / circumference;
    assert t.tipSpeedRatio * (c * v) * 60.0 == c * (t.tipSpeedRatio * v * 60.0);
    assert fast == c * slow;
  }

  /** The report of `compute`. */
  datatype PhysicsReport = PhysicsReport(
    windSpeedMps: real,
    powerMw: real,
    windPowerAvailableMw: real,
    rotorRpm: real,
    sweptAreaM2: real,
    tipSpeedMps: real)

  /** All physics quantities for one wind speed. It fails exactly when the
      rotor speed does (positive wind, zero diameter); otherwise it echoes the
      wind speed, reports the delivered and available power and the rotor
      speed, and its tip speed and rotor speed agree: the tip covers one
      circumference per revolution. */
  function Compute(windSpeedMps: real, turbine: Turbine): (r: Result<PhysicsReport>)
    ensures r.Err? <==> windSpeedMps > 0.0 && turbine.rotorDiameterM == 0.0
    ensures r.Ok? ==>
      && r.value.windSpeedMps == windSpeedMps
      && r.value.powerMw == ActualPowerMW(windSpeedMps, turbine)
      && r.value.windPowerAvailableMw == WindPowerMW(windSpeedMps, turbine.rotorDiameterM, turbine.airDensityKgM3)
      && r.value.rotorRpm == RotorRpm(windSpeedMps, turbine).value
      && r.value.sweptAreaM2 == SweptAreaM2(turbine.rotorDiameterM)
      && r.value.tipSpeedMps == turbine.tipSpeedRatio * windSpeedMps
      && (windSpeedMps > 0.0 ==> r.value.rotorRpm * PI * turbine.rotorDiameterM == r.value.tipSpeedMps * 60.0)
      && (turbine.capacityMw >= 0.0 ==> r.value.powerMw <= turbine.capacityMw)
  {
    var a := SweptAreaM2(turbine.rotorDiameterM);
    var tipSpd := turbine.tipSpeedRatio * windSpeedMps;
    var power := ActualPowerMW(windSpeedMps, turbine);
    var available := WindPowerMW(windSpeedMps, turbine.rotorDiameterM, turbine.airDensityKgM3);
    match RotorRpm(windSpeedMps, turbine)
    case Err(e) => Err(e)
    case Ok(rpm) => Ok(PhysicsReport(windSpeedMps, power, available, rpm, a, tipSpd))
  }
}
