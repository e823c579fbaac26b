/** Physics checks on turbine components (backend/app/services/components.py):
    the soft-stiff tower frequency band and the Jensen wake deficit. */
module Components {
  import opened Common
  import Physics

  /** The column of the `tower` table that the frequency check reads. */
  datatype Tower = Tower(firstNatFreqHz: real)

  /** The columns of the `wakemodel` table that the wake formula reads. */
  datatype WakeModel = WakeModel(thrustCoefficient: real, wakeDecayConstant: real)

  datatype TowerFrequencyReport = TowerFrequencyReport(
    firstNatFreqHz: real,
    onePHz: real,
    threePHz: real,
    isSoftStiff: bool,
    marginTo1pHz: real,
    marginTo3pHz: real)

  /** The rotor's once-per-revolution frequency in Hz. A zero diameter makes
      Python raise ZeroDivisionError. */
  function OneP(rotorDiameterM: real, tipSpeedRatio: real, windSpeedMps: real): (r: Result<real>)
    ensures r.Err? <==> rotorDiameterM == 0.0
    ensures r.Err? ==> r.error == ZeroDivision
    ensures r.Ok? ==> r.value * PI * rotorDiameterM == tipSpeedRatio * windSpeedMps
    ensures r.Ok? && windSpeedMps == 0.0 ==> r.value == 0.0
  {
    var radius := rotorDiameterM / 2.0;
    if radius == 0.0 then Err(ZeroDivision)
    else
      var omega := tipSpeedRatio * windSpeedMps / radius;
      assert omega * radius == tipSpeedRatio * windSpeedMps;
      var hz := omega / (2.0 * PI);
      assert hz * (2.0 * PI) == omega;
      assert hz * PI * rotorDiameterM == (hz * (2.0 * PI)) * radius;
      Ok(hz)
  }

  /** Soft-stiff check: the tower's first natural frequency must lie strictly
      between the rotor's 1P and 3P excitation frequencies. */
  function TowerFrequencyCheck(tower: Tower, rotorDiameterM: real, tipSpeedRatio: real, windSpeedMps: real)
    : (r: Result<TowerFrequencyReport>)
    ensures r.Err? <==> rotorDiameterM == 0.0
    ensures r.Err? ==> r.error == ZeroDivision
    ensures r.Ok? ==>
      && r.value.onePHz == OneP(rotorDiameterM, tipSpeedRatio, windSpeedMps).value
      && r.value.threePHz == 3.0 * r.value.onePHz
      && r.value.firstNatFreqHz == tower.firstNatFreqHz
      && r.value.marginTo1pHz == tower.firstNatFreqHz - r.value.onePHz
      && r.value.marginTo3pHz == r.value.threePHz - tower.firstNatFreqHz
      && (r.value.isSoftStiff <==> r.value.marginTo1pHz > 0.0 && r.value.marginTo3pHz > 0.0)
      && (r.value.isSoftStiff <==> r.value.onePHz < tower.firstNatFreqHz < r.value.threePHz)
      && (r.value.isSoftStiff ==> r.value.onePHz > 0.0)
  {
    match OneP(rotorDiameterM, tipSpeedRatio, windSpeedMps)
    case Err(e) => Err(e)
    case Ok(oneP) =>
      var threeP := 3.0 * oneP;
      var fn := tower.firstNatFreqHz;
      Ok(TowerFrequencyReport(fn, oneP, threeP, oneP < fn < threeP, fn - oneP, threeP - fn))
  }

  /** In calm air both rotor harmonics vanish, so no tower is soft-stiff. */
  lemma {:induction false} CalmIsNeverSoftStiff(tower: Tower, d: real, tsr: real)
    requires d != 0.0
    ensures TowerFrequencyCheck(tower, d, tsr, 0.0).Ok?
    ensures !TowerFrequencyCheck(tower, d, tsr, 0.0).value.isSoftStiff
    ensures TowerFrequencyCheck(tower, d, tsr, 0.0).value.onePHz == 0.0
    ensures TowerFrequencyCheck(tower, d, tsr, 0.0).value.threePHz == 0.0
  {
  }

  /** The 1P frequency is the rotor speed of the turbine physics in Hz:
      revolutions per minute over 60, for every positive wind. */
  lemma {:induction false} OnePIsRotorSpeed(v: real, t: Physics.Turbine)
    requires v > 0.0 && t.rotorDiameterM != 0.0
    ensures OneP(t.rotorDiameterM, t.tipSpeedRatio, v).Ok? && Physics.RotorRpm(v, t).Ok?
    ensures OneP(t.rotorDiameterM, t.tipSpeedRatio, v).value * 60.0 == Physics.RotorRpm(v, t).value
  {
    var hz := OneP(t.rotorDiameterM, t.tipSpeedRatio, v).value;
    var rpm := Physics.RotorRpm(v, t).value;
    var k := PI * t.rotorDiameterM;
    assert k != 0.0;
    assert hz * k == t.tipSpeedRatio * v;
    assert rpm * k == t.tipSpeedRatio * v * 60.0;
    assert (hz * 60.0) * k == rpm * k;
    CancelFactor(hz * 60.0, rpm, k);
  }

  lemma CancelFactor(x: real, y: real, k: real)
    requires k != 0.0 && x * k == y * k
    ensures x == y
  {
    assert x == (x * k) / k;
    assert y == (y * k) / k;
  }

  datatype WakeReport = WakeReport(
    windSpeedMps: real,
    distanceM: real,
    wakeSpeedMps: real,
    speedDeficitFraction: real)

  /** `(D / (D + 2kx))^2`, the wake expansion factor of the Jensen model. */
  function Expansion(d: real, k: real, x: real): real
    requires d + 2.0 * k * x != 0.0
  {
    var ratio := d / (d + 2.0 * k * x);
    ratio * ratio
  }

  /** The Jensen deficit `(1 - sqrt(1 - Ct)) * (D / (D + 2kx))^2`. */
  function DeficitFactor(ct: real, d: real, k: real, x: real, sqrt: real -> real): real
    requires d + 2.0 * k * x != 0.0
  {
    (1.0 - sqrt(1.0 - ct)) * Expansion(d, k, x)
  }

  /** Jensen top-hat wake speed at distance `x` behind the rotor. Python raises
      ValueError for a thrust coefficient above 1 (square root of a negative
      number) and, failing that, ZeroDivisionError when `D + 2kx` is zero.
      Otherwise the free-stream speed and distance are echoed and the wake
      speed is the free stream reduced by the deficit fraction. */
  function WakeDeficit(wake: WakeModel, distanceM: real, windSpeedMps: real, rotorDiameterM: real,
                       sqrt: real -> real): (r: Result<WakeReport>)
    requires IsSqrt(sqrt)
    ensures r.Err? <==> wake.thrustCoefficient > 1.0
                        || rotorDiameterM + 2.0 * wake.wakeDecayConstant * distanceM == 0.0
    ensures r.Err? ==> r.error == (if wake.thrustCoefficient > 1.0 then MathDomain else ZeroDivision)
    ensures r.Ok? ==>
      && r.value.windSpeedMps == windSpeedMps
      && r.value.distanceM == distanceM
      && r.value.speedDeficitFraction
           == DeficitFactor(wake.thrustCoefficient, rotorDiameterM, wake.wakeDecayConstant, distanceM, sqrt)
      && r.value.wakeSpeedMps == windSpeedMps * (1.0 - r.value.speedDeficitFraction)
  {
    var ct := wake.thrustCoefficient;
    var k := wake.wakeDecayConstant;
    if 1.0 - ct < 0.0 then Err(MathDomain)
    else if rotorDiameterM + 2.0 * k * distanceM == 0.0 then Err(ZeroDivision)
    else
      var deficit := DeficitFactor(ct, rotorDiameterM, k, distanceM, sqrt);
      var vWake := windSpeedMps * (1.0 - deficit);
      Ok(WakeReport(windSpeedMps, distanceM, vWake, deficit))
  }

  /** With no thrust there is no deficit: the wake moves at the free-stream
      speed, wherever it is measured. */
  lemma {:induction false} NoThrustNoDeficit(wake: WakeModel, x: real, v: real, d: real, sqrt: real -> real)
    requires IsSqrt(sqrt) && wake.thrustCoefficient == 0.0
    requires d + 2.0 * wake.wakeDecayConstant * x != 0.0
    ensures WakeDeficit(wake, x, v, d, sqrt).Ok?
    ensures WakeDeficit(wake, x, v, d, sqrt).value.speedDeficitFraction == 0.0
    ensures WakeDeficit(wake, x, v, d, sqrt).value.wakeSpeedMps == v
  {
    SqrtUnitInterval(sqrt, 1.0);
    assert sqrt(1.0 - 0.0) == 1.0;
  }

  /** Behind a rotor, with a non-negative decay constant, the expansion
      factor lies in (0, 1]. */
  lemma ExpansionInUnitInterval(d: real, k: real, x: real)
    requires d > 0.0 && k >= 0.0 && x >= 0.0
    ensures d + 2.0 * k * x > 0.0
    ensures 0.0 < Expansion(d, k, x) <= 1.0
  {
    assert k * x >= 0.0;
    var w := d + 2.0 * k * x;
    var ratio := d / w;
    assert 0.0 < ratio <= 1.0 by {
      assert ratio * w == d;
      assert w >= d;
    }
    assert ratio * ratio <= ratio * 1.0;
  }

  /** With a thrust coefficient in [0, 1] and the measurement point behind a
      real rotor, the deficit fraction lies in [0, 1], so the wake speed lies
      between zero and the free-stream speed. */
  lemma {:induction false} WakeSpeedBounded(wake: WakeModel, x: real, v: real, d: real, sqrt: real -> real)
    requires IsSqrt(sqrt)
    requires 0.0 <= wake.thrustCoefficient <= 1.0 && wake.wakeDecayConstant >= 0.0
    requires d > 0.0 && x >= 0.0 && v >= 0.0
    ensures WakeDeficit(wake, x, v, d, sqrt).Ok?
    ensures 0.0 <= WakeDeficit(wake, x, v, d, sqrt).value.speedDeficitFraction <= 1.0
    ensures 0.0 <= WakeDeficit(wake, x, v, d, sqrt).value.wakeSpeedMps <= v
  {
    var ct, k := wake.thrustCoefficient, wake.wakeDecayConstant;
    ExpansionInUnitInterval(d, k, x);
    SqrtUnitInterval(sqrt, 1.0 - ct);
    var root := 1.0 - sqrt(1.0 - ct);
    var e := Expansion(d, k, x);
    assert 0.0 <= root <= 1.0;
    UnitProduct(root, e);
    var f := DeficitFactor(ct, d, k, x, sqrt);
    assert f == root * e;
    UnitProduct(v, 1.0 - f);
  }

  /** The expansion factor never grows with distance behind the rotor. */
  lemma ExpansionNonIncreasing(d: real, k: real, x1: real, x2: real)
    requires d > 0.0 && k > 0.0 && 0.0 <= x1 <= x2
    ensures d + 2.0 * k * x1 > 0.0 && d + 2.0 * k * x2 > 0.0
    ensures Expansion(d, k, x2) <= Expansion(d, k, x1)
  {
    ExpansionInUnitInterval(d, k, x1);
    ExpansionInUnitInterval(d, k, x2);
    var w1, w2 := d + 2.0 * k * x1, d + 2.0 * k * x2;
    assert k * x1 <= k * x2;
    assert w1 <= w2;
    var r1, r2 := d / w1, d / w2;
    assert r2 <= r1 by {
      assert r1 * w1 == d && r2 * w2 == d;
      assert r2 * w1 <= r2 * w2;
    }
    assert 0.0 < r2;
    assert r2 * r2 <= r1 * r1 by {
      assert r2 * r2 <= r2 * r1;
      assert r2 * r1 <= r1 * r1;
    }
  }

  /** For a thrust coefficient in [0, 1], a positive diameter and a positive
      decay constant, the deficit fraction never grows with downstream
      distance. */
  lemma DeficitNonIncreasing(ct: real, d: real, k: real, x1: real, x2: real, sqrt: real -> real)
    requires IsSqrt(sqrt)
    requires 0.0 <= ct <= 1.0 && d > 0.0 && k > 0.0 && 0.0 <= x1 <= x2
    ensures d + 2.0 * k * x1 > 0.0 && d + 2.0 * k * x2 > 0.0
    ensures DeficitFactor(ct, d, k, x2, sqrt) <= DeficitFactor(ct, d, k, x1, sqrt)
  {
    ExpansionNonIncreasing(d, k, x1, x2);
    SqrtUnitInterval(sqrt, 1.0 - ct);
    var root := 1.0 - sqrt(1.0 - ct);
    assert root >= 0.0;
    NonNegativeProduct(root, Expansion(d, k, x1) - Expansion(d, k, x2));
  }
}
