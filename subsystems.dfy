/** The subsystem catalogue and the blade-count design formulas of the design
    pages (frontend/src/data/subsystems.ts). The blade count `n` is a
    JavaScript number; the page feeds it whole numbers from a slider. */
module Subsystems {
  import opened Common
  import FleetPage

  datatype Subsystem = Subsystem(id: string, labelText: string, interactive: bool)

  /** The catalogue's own entries. */
  const SUBSYSTEMS: map<string, Subsystem> := map[
    "blades" := Subsystem("blades", "Blades", true),
    "drivetrain" := Subsystem("drivetrain", "Drivetrain", true)
  ]

  /** Looking an id up among the catalogue's own entries: defined exactly for
      the two interactive subsystems, and the entry found carries that id. */
  function GetSubsystem(id: string): (r: Option<Subsystem>)
    ensures r.Some? <==> id == "blades" || id == "drivetrain"
    ensures r.Some? ==> r.value.id == id && r.value.interactive
  {
    if id in SUBSYSTEMS then Some(SUBSYSTEMS[id]) else None
  }

  /** What `SUBSYSTEMS[id]` yields on a plain JavaScript object literal:
      an own entry, a member inherited from `Object.prototype`, or
      `undefined`. */
  datatype JsLookup = Undefined | Own(subsystem: Subsystem) | Inherited(name: string)

  /** JavaScript truthiness of the looked-up value (`if (!subsystem)`). */
  predicate Truthy(v: JsLookup)
  {
    !v.Undefined?
  }

  /** Property names every object literal inherits from `Object.prototype`. */
  const OBJECT_PROTOTYPE_MEMBERS: set<string> := {
    "constructor", "hasOwnProperty", "isPrototypeOf", "propertyIsEnumerable",
    "toLocaleString", "toString", "valueOf", "__proto__",
    "__defineGetter__", "__defineSetter__", "__lookupGetter__", "__lookupSetter__"
  }

  /** `getSubsystem` as written: plain indexing follows the prototype chain. */
  function GetSubsystemAsWritten(id: string): (v: JsLookup)
    ensures v.Own? ==> v.subsystem.id == id
  {
    if id in SUBSYSTEMS then Own(SUBSYSTEMS[id])
    else if id in OBJECT_PROTOTYPE_MEMBERS then Inherited(id)
    else Undefined
  }

  /** An id such as "toString" passes the page's `if (!subsystem) notFound()`
      guard although no subsystem of that name exists. */
  lemma AsWrittenAcceptsInheritedKey()
    ensures Truthy(GetSubsystemAsWritten("toString"))
    ensures !GetSubsystemAsWritten("toString").Own?
    ensures GetSubsystem("toString") == None
  {
    assert "toString" !in SUBSYSTEMS;
  }

  /** The two lookups agree on every id that is not an inherited member name. */
  lemma {:induction false} AsWrittenAgreesElsewhere(id: string)
    requires id !in OBJECT_PROTOTYPE_MEMBERS
    ensures Truthy(GetSubsystemAsWritten(id)) <==> GetSubsystem(id).Some?
    ensures GetSubsystem(id).Some? ==> GetSubsystemAsWritten(id) == Own(GetSubsystem(id).value)
  {
  }

  function Abs(x: real): (r: real)
    ensures r >= 0.0 && (r == x || r == -x)
  {
    if x < 0.0 then -x else x
  }

  /** Tonnes of blade mass for `n` blades (the number before formatting). */
  function CalcWeight(n: real): (w: real)
    ensures w == 20.0 <==> n == 3.0
    ensures w > 20.0 <==> n > 3.0
  {
    20.0 + (n - 3.0) * 2.5
  }

  /** Three blades weigh 20 t and every extra blade adds 2.5 t. */
  lemma WeightFacts(n: real, m: real)
    ensures CalcWeight(3.0) == 20.0
    ensures CalcWeight(n + 1.0) == CalcWeight(n) + 2.5
    ensures n < m ==> CalcWeight(n) < CalcWeight(m)
  {
  }

  /** Cost in thousands for `n` blades. */
  function CalcCost(n: real): (c: real)
    ensures c == 1200.0 <==> n == 3.0
    ensures c > 1200.0 <==> n > 3.0
  {
    1200.0 + (n - 3.0) * 60.0
  }

  /** Three blades cost 1200k and every extra blade adds exactly 60k. */
  lemma CostFacts(n: real, m: real)
    ensures CalcCost(3.0) == 1200.0
    ensures CalcCost(n + 1.0) == CalcCost(n) + 60.0
    ensures n < m ==> CalcCost(n) < CalcCost(m)
  {
  }

  /** The output scale factor: 1 at three blades, 6% less per blade away. */
  function Scale(n: real): (s: real)
    ensures s <= 1.0 && (s == 1.0 <==> n == 3.0)
  {
    1.0 - Abs(n - 3.0) * 0.06
  }

  /** Average output in MW for `n` blades: at most 2 MW, reached exactly at
      three blades, and the same at equal distances either side of three. */
  function CalcAvgOutput(n: real): (mw: real)
    ensures mw <= FleetPage.RATED_POWER_MW
    ensures mw == FleetPage.RATED_POWER_MW <==> n == 3.0
  {
    2.0 * Scale(n)
  }

  lemma AvgOutputSymmetric(d: real)
    ensures CalcAvgOutput(3.0 + d) == CalcAvgOutput(3.0 - d)
  {
  }

  /** Deviation from three blades reduces the output: a count further from
      three gives strictly less. */
  lemma AvgOutputDecreasesAwayFromThree(n: real, m: real)
    requires Abs(n - 3.0) < Abs(m - 3.0)
    ensures CalcAvgOutput(m) < CalcAvgOutput(n)
  {
  }

  /** Efficiency percent for `n` blades: `Math.round` of 100 times the scale,
      so never above 100 and exactly 100 at three blades. */
  function CalcEfficiency(n: real): (e: int)
    ensures e <= 100
    ensures n == 3.0 ==> e == 100
  {
    JsRound((1.0 - Abs(n - 3.0) * 0.06) * 100.0)
  }

  /** For a whole number of blades the rounding is exact: 100% at three
      blades, 6 points less per blade away from three. */
  lemma {:induction false} EfficiencyOfWholeBlades(k: int)
    ensures CalcEfficiency(k as real) == 100 - 6 * (if k < 3 then 3 - k else k - 3)
  {
    var d := if k < 3 then 3 - k else k - 3;
    assert Abs(k as real - 3.0) == d as real;
    assert (1.0 - Abs(k as real - 3.0) * 0.06) * 100.0 == (100 - 6 * d) as real;
    JsRoundOfInteger(100 - 6 * d);
  }

  /** For a whole number of blades the average output is the rated 2 MW times
      the efficiency percentage, so it drops by 0.12 MW per blade away from
      three. */
  lemma {:induction false} AvgOutputMatchesEfficiency(k: int)
    ensures CalcAvgOutput(k as real) == RATED_POWER_MW * (CalcEfficiency(k as real) as real) / 100.0
    ensures CalcAvgOutput(k as real) == 2.0 - 0.12 * (if k < 3 then 3 - k else k - 3) as real
  {
    EfficiencyOfWholeBlades(k);
    var d := if k < 3 then 3 - k else k - 3;
    assert Abs(k as real - 3.0) == d as real;
  }

  lemma EfficiencySymmetric(d: real)
    ensures CalcEfficiency(3.0 + d) == CalcEfficiency(3.0 - d)
    ensures CalcEfficiency(3.0) == 100
  {
    JsRoundOfInteger(100);
  }

  const CUT_IN_WIND: real := 4.0
  const RATED_WIND: real := 13.0
  const RATED_POWER_MW: real := 2.0

  datatype CurvePoint = CurvePoint(wind: real, power: real)

  /** The `power` of one curve entry before `toFixed(3)` rounding: nothing
      below cut-in, the scaled rating from the rated wind on, and for a
      non-negative scale always between 0 and the scaled rating. */
  function CurvePower(scale: real, wind: real): (p: real)
    ensures wind < CUT_IN_WIND ==> p == 0.0
    ensures wind >= RATED_WIND ==> p == RATED_POWER_MW * scale
    ensures scale >= 0.0 ==> 0.0 <= p <= RATED_POWER_MW * scale
  {
    if wind >= CUT_IN_WIND && wind < RATED_WIND then
      var fraction := (wind - CUT_IN_WIND) / (RATED_WIND - CUT_IN_WIND);
      FleetPage.CubeUnitInterval(fraction);
      assert scale >= 0.0 ==> 0.0 <= scale * Cube(fraction) <= scale by {
        if scale >= 0.0 { UnitProduct(scale, Cube(fraction)); }
      }
      RATED_POWER_MW * (scale * Cube(fraction))
    else if wind >= RATED_WIND then RATED_POWER_MW * scale
    else 0.0
  }

  /** The design page's power curve is the home page's power curve scaled by
      the blade-count factor, at every wind speed. */
  lemma CurvePowerIsScaledPagePower(scale: real, wind: real)
    ensures CurvePower(scale, wind) == scale * FleetPage.WindToPowerMW(wind)
  {
    if wind >= CUT_IN_WIND && wind < RATED_WIND {
      var f := FleetPage.RampFraction(wind);
      assert f == (wind - CUT_IN_WIND) / (RATED_WIND - CUT_IN_WIND);
      assert FleetPage.WindToPowerMW(wind) == 2.0 * Cube(f);
      assert RATED_POWER_MW * scale * f * f * f == scale * (2.0 * (f * f * f));
    }
  }

  /** The 26-point power curve for `n` blades, at wind speeds 0 .. 25. */
  function GeneratePowerCurve(n: real): (curve: seq<CurvePoint>)
    ensures |curve| == 26
    ensures forall i :: 0 <= i < |curve| ==> curve[i].wind == i as real
  {
    seq(26, i requires 0 <= i < 26 => CurvePoint(i as real, CurvePower(Scale(n), i as real)))
  }

  /** Entry `i` of the curve is the home page's power at wind `i`, scaled by
      the blade-count factor. */
  lemma {:induction false} PowerCurveEntryIsScaled(n: real, i: int)
    requires 0 <= i < 26
    ensures GeneratePowerCurve(n)[i].power == Scale(n) * FleetPage.WindToPowerMW(i as real)
  {
    assert GeneratePowerCurve(n)[i].power == CurvePower(Scale(n), i as real);
    CurvePowerIsScaledPagePower(Scale(n), i as real);
  }

  /** Entry `i` of the curve: nothing below cut-in, the full scaled rating from
      the rated wind on, the scaled cubic ramp in between; for three blades it
      is exactly the home page's power at that wind. */
  lemma {:induction false} PowerCurveEntry(n: real, i: int)
    requires 0 <= i < 26
    ensures var p := GeneratePowerCurve(n)[i].power;
      && (i < 4 ==> p == 0.0)
      && (i >= 13 ==> p == 2.0 * Scale(n))
      && (4 <= i < 13 ==> p == 2.0 * Scale(n) * Cube(FleetPage.RampFraction(i as real)))
      && (n == 3.0 ==> p == FleetPage.WindToPowerMW(i as real))
  {
    PowerCurveEntryIsScaled(n, i);
  }

  lemma ScaledOrder(scale: real, lo: real, hi: real, x: real, y: real)
    requires scale >= 0.0 && lo <= hi && x == scale * lo && y == scale * hi
    ensures x <= y
  {
  }

  /** With a non-negative scale the curve never decreases with wind speed. */
  lemma CurvePowerMonotone(scale: real, w1: real, w2: real)
    requires scale >= 0.0 && w1 <= w2
    ensures CurvePower(scale, w1) <= CurvePower(scale, w2)
  {
    CurvePowerIsScaledPagePower(scale, w1);
    CurvePowerIsScaledPagePower(scale, w2);
    FleetPage.WindToPowerMonotone(w1, w2);
    ScaledOrder(scale, FleetPage.WindToPowerMW(w1), FleetPage.WindToPowerMW(w2),
      CurvePower(scale, w1), CurvePower(scale, w2));
  }

  /** For blade counts at which the scale is non-negative (every count from
      1 to 6 on the slider) the curve never decreases along the table. */
  lemma {:induction false} PowerCurveNonDecreasing(n: real, i: int, j: int)
    requires Scale(n) >= 0.0
    requires 0 <= i <= j < 26
    ensures GeneratePowerCurve(n)[i].power <= GeneratePowerCurve(n)[j].power
  {
    var curve := GeneratePowerCurve(n);
    assert curve[i].power == CurvePower(Scale(n), i as real);
    assert curve[j].power == CurvePower(Scale(n), j as real);
    CurvePowerMonotone(Scale(n), i as real, j as real);
  }
}
