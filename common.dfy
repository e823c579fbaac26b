/** Shared vocabulary: optional values, Python exceptions as results, and the
    numeric primitives of JavaScript and Python that the formulas use, stated
    over `real` (IEEE rounding is not modelled). */
module Common {

  datatype Option<+T> = None | Some(value: T)

  /** The exceptions that Python's float arithmetic raises in the modelled code. */
  datatype PyError =
    | ZeroDivision   // `x / 0.0` raises ZeroDivisionError
    | MathDomain     // `math.sqrt(x)` with x < 0 raises ValueError

  datatype Result<+T> = Ok(value: T) | Err(error: PyError)

  /** The value of `math.pi` in Python and `Math.PI` in JavaScript, as a real. */
  const PI: real := 3.141592653589793

  /** Truncation toward zero (the integer part of `x`). */
  function Trunc(x: real): (t: int)
    ensures x >= 0.0 ==> t as real <= x < t as real + 1.0
    ensures x < 0.0 ==> t as real - 1.0 < x <= t as real
  {
    if x >= 0.0 then x.Floor else -((-x).Floor)
  }

  /** JavaScript's `x % 360`: the remainder of truncated division, which takes the
      sign of the dividend (unlike Dafny's Euclidean `%`). It differs from the
      dividend by whole turns and lies in [0, 360) for a non-negative dividend,
      in (-360, 0] for a negative one. */
  function JsRem360(x: real): (r: real)
    ensures x >= 0.0 ==> 0.0 <= r < 360.0
    ensures x < 0.0 ==> -360.0 < r <= 0.0
    ensures IsWholeTurns(x - r)
  {
    var k := Trunc(x / 360.0) as real;
    assert x >= 0.0 <==> x / 360.0 >= 0.0;
    assert (360.0 * k) / 360.0 == k;
    x - 360.0 * k
  }

  /** The floor-based residue modulo 360, always in [0, 360). */
  function FloorMod360(x: real): (r: real)
    ensures 0.0 <= r < 360.0
  {
    x - 360.0 * ((x / 360.0).Floor as real)
  }

  /** For a non-negative dividend JavaScript's `% 360` agrees with the
      floor-based residue, so the result lies in [0, 360). */
  lemma JsRem360NonNegative(x: real)
    requires x >= 0.0
    ensures JsRem360(x) == FloorMod360(x)
    ensures 0.0 <= JsRem360(x) < 360.0
  {
    assert x / 360.0 >= 0.0;
  }

  /** A value that is an integer number of full turns. */
  predicate IsWholeTurns(z: real)
  {
    (z / 360.0).Floor as real == z / 360.0
  }

  /** JavaScript's `Math.round`: round half toward positive infinity. */
  function JsRound(x: real): (r: int)
    ensures x - 0.5 < r as real <= x + 0.5
  {
    (x + 0.5).Floor
  }

  /** `Math.round` returns an integer argument unchanged. */
  lemma {:induction false} JsRoundOfInteger(k: int)
    ensures JsRound(k as real) == k
  {
    assert (k as real + 0.5).Floor == k;
  }

  /** `x ** 3`. */
  function Cube(x: real): real
  {
    x * x * x
  }

  /** `x * y`, with the signs of the product stated so that they follow the
      term wherever it is used. */
  function Product(x: real, y: real): (p: real)
    ensures x > 0.0 && y > 0.0 ==> p > 0.0
    ensures x < 0.0 && y < 0.0 ==> p > 0.0
    ensures x >= 0.0 && y >= 0.0 ==> p >= 0.0
  {
    x * y
  }

  lemma NonNegativeProduct(x: real, y: real)
    requires x >= 0.0 && y >= 0.0
    ensures x * y >= 0.0
  {
  }

  lemma MulPositive(x: real, y: real)
    requires x > 0.0 && y > 0.0
    ensures x * y > 0.0
  {
  }

  /** Multiplying a non-negative number by one in [0, 1] does not enlarge it. */
  lemma UnitProduct(a: real, b: real)
    requires 0.0 <= a && 0.0 <= b <= 1.0
    ensures 0.0 <= a * b <= a
  {
  }

  /** What the modelled code needs of `math.sqrt`: for a non-negative argument
      it returns the non-negative number whose square is that argument. */
  ghost predicate IsSqrt(sqrt: real -> real)
  {
    forall y: real {:trigger sqrt(y)} :: y >= 0.0 ==> sqrt(y) >= 0.0 && sqrt(y) * sqrt(y) == y
  }

  /** Consequences of `IsSqrt`: the root of 1 is 1 and the root of a number
      in [0, 1] lies in [0, 1]. */
  lemma SqrtUnitInterval(sqrt: real -> real, y: real)
    requires IsSqrt(sqrt)
    requires 0.0 <= y <= 1.0
    ensures 0.0 <= sqrt(y) <= 1.0
    ensures y == 1.0 ==> sqrt(y) == 1.0
  {
    var s := sqrt(y);
    assert s >= 0.0 && s * s == y;
    assert s <= 1.0;
    assert s * s <= s * 1.0;
    assert y == 1.0 ==> s == 1.0;
  }
}
