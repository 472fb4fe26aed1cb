/** The JavaScript number operations the prediction engine relies on, stated
    over Dafny's exact `real` numbers. */
module JsMath {

  /** `Math.round`: the nearest integer, with ties going up (towards +Infinity). */
  function Round(x: real): int
  {
    (x + 0.5).Floor
  }

  /** Round gives the integer nearest to x, the upper one on a tie. */
  lemma RoundNearest(x: real)
    ensures x - 0.5 < Round(x) as real <= x + 0.5
  {
  }

  /** `Math.min` on two numbers. */
  function Min(a: real, b: real): (r: real)
    ensures r <= a && r <= b
    ensures r == a || r == b
  {
    if a <= b then a else b
  }

  /** `Math.abs`. */
  function Abs(x: real): (r: real)
    ensures r >= 0.0
    ensures r == x || r == -x
  {
    if x < 0.0 then -x else x
  }

  /** `x.toFixed(1)` read back as a number: `x` rounded to one decimal place,
      ties going away from zero (the sign is set aside first, as the
      ECMAScript algorithm for `toFixed` does). */
  function ToFixed1(x: real): real
  {
    var n := if x < 0.0 then -Round(-x * 10.0) else Round(x * 10.0);
    n as real / 10.0
  }

  /** toFixed(1) moves a number by at most half a tenth, onto a whole number
      of tenths. */
  lemma ToFixed1Bounds(x: real)
    ensures -0.05 <= ToFixed1(x) - x <= 0.05
    ensures (ToFixed1(x) * 10.0).Floor as real == ToFixed1(x) * 10.0
  {
    if x < 0.0 {
      var n := Round(-x * 10.0);
      RoundNearest(-x * 10.0);
      assert ToFixed1(x) == (-n) as real / 10.0;
      assert ToFixed1(x) * 10.0 == (-n) as real;
    } else {
      var n := Round(x * 10.0);
      RoundNearest(x * 10.0);
      assert ToFixed1(x) == n as real / 10.0;
      assert ToFixed1(x) * 10.0 == n as real;
    }
  }

  /** The JavaScript expression `a % 12` on an integer: the remainder keeps the
      sign of the dividend (Dafny's own `%` is Euclidean and never negative).
      The month labels are the only place the source takes a remainder. */
  function JsRem12(a: int): (r: int)
    ensures (a - r) % 12 == 0
    ensures a >= 0 ==> 0 <= r < 12
    ensures a < 0 ==> -12 < r <= 0
  {
    if a >= 0 then a % 12 else -((-a) % 12)
  }

  /** Host operations that the model does not compute: `Math.exp` and
      `Math.sqrt`. They are parameters, constrained only by the laws below. */
  datatype MathOps = MathOps(exp: real -> real, sqrt: real -> real)

  /** What the proofs need of `Math.exp`: exp(0) = 1, it is positive and it is
      strictly increasing. */
  ghost predicate ExpLaws(m: MathOps)
  {
    && m.exp(0.0) == 1.0
    && (forall x :: m.exp(x) > 0.0)
    && (forall x, y :: x < y ==> m.exp(x) < m.exp(y))
  }

  /** What the proofs need of `Math.sqrt`: it is non-negative on non-negative
      arguments. */
  ghost predicate SqrtLaws(m: MathOps)
  {
    forall v :: v >= 0.0 ==> m.sqrt(v) >= 0.0
  }

  lemma RoundMonotone(x: real, y: real)
    requires x <= y
    ensures Round(x) <= Round(y)
  {
  }

  lemma RoundOfInteger(n: int)
    ensures Round(n as real) == n
  {
  }

  lemma ToFixed1OfInteger(n: int)
    ensures ToFixed1(n as real) == n as real
  {
    if n < 0 {
      RoundOfInteger(-n * 10);
    } else {
      RoundOfInteger(n * 10);
    }
  }

  /** toFixed(1) is symmetric about zero. */
  lemma ToFixed1Negate(x: real)
    ensures ToFixed1(-x) == -ToFixed1(x)
  {
  }

  /** A number exactly halfway between two tenths goes to the one farther
      from zero: 0.25 becomes 0.3 and -0.25 becomes -0.3. */
  lemma ToFixed1Tie(k: nat)
    ensures ToFixed1((2 * k + 1) as real / 20.0) == (k + 1) as real / 10.0
    ensures ToFixed1(-((2 * k + 1) as real / 20.0)) == -((k + 1) as real / 10.0)
  {
    var x := (2 * k + 1) as real / 20.0;
    assert x * 10.0 + 0.5 == (k + 1) as real;
    assert Round(x * 10.0) == k + 1;
    ToFixed1Negate(x);
  }

  /** toFixed(1) never reverses the order of two numbers. */
  lemma ToFixed1Monotone(x: real, y: real)
    requires x <= y
    ensures ToFixed1(x) <= ToFixed1(y)
  {
    if 0.0 <= x {
      RoundMonotone(x * 10.0, y * 10.0);
    } else if y < 0.0 {
      RoundMonotone(-y * 10.0, -x * 10.0);
    } else {
      assert Round(-x * 10.0) >= 0;
      assert Round(y * 10.0) >= 0;
    }
  }

  /** A number's sign survives toFixed(1) (a small number may become 0). */
  lemma ToFixed1Sign(x: real)
    ensures x >= 0.0 ==> ToFixed1(x) >= 0.0
    ensures x <= 0.0 ==> ToFixed1(x) <= 0.0
  {
    ToFixed1OfInteger(0);
    if x >= 0.0 {
      ToFixed1Monotone(0.0, x);
    } else {
      ToFixed1Monotone(x, 0.0);
    }
  }

  /** For a whole threshold n >= 1, toFixed(1) reaches n exactly from
      n - 0.05 upwards (the tie n - 0.05 rounds up to n). */
  lemma ToFixed1AtLeast(x: real, n: int)
    requires n >= 1
    ensures ToFixed1(x) >= n as real <==> x >= n as real - 0.05
  {
    if x >= 0.0 {
      var r := Round(x * 10.0);
      assert ToFixed1(x) == r as real / 10.0;
      assert r >= 10 * n <==> x * 10.0 + 0.5 >= (10 * n) as real;
    } else {
      ToFixed1Sign(x);
    }
  }
}
