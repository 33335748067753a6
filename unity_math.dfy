/** The documented contracts of the few Unity engine routines the scripts call:
    Mathf.Lerp, Mathf.CeilToInt, Random.value and Random.Range (float overload).
    Floats are modelled as mathematical reals; rounding is not modelled. */
module UnityMath {

  /** Mathf.Clamp01: t forced into [0, 1]. */
  function Clamp01(t: real): (r: real)
    ensures 0.0 <= r <= 1.0
    ensures r == t <==> 0.0 <= t <= 1.0
  {
    if t < 0.0 then 0.0 else if t > 1.0 then 1.0 else t
  }

  /** Mathf.Lerp(a, b, t): interpolation from a to b with t clamped to [0, 1].
      The result never leaves the segment between a and b. */
  function Lerp(a: real, b: real, t: real): (r: real)
    ensures t <= 0.0 ==> r == a
    ensures t >= 1.0 ==> r == b
    ensures Between(r, a, b)
  {
    var c := Clamp01(t);
    ScaleBetween(b - a, c);
    a + Scale(b - a, c)
  }

  /** x lies on the closed segment joining a and b, whichever is larger. */
  predicate Between(x: real, a: real, b: real)
  {
    if a <= b then a <= x <= b else b <= x <= a
  }

  /** The product d * c, kept as one term so that facts about it carry over. */
  function Scale(d: real, c: real): real
  {
    d * c
  }

  /** Scaling d by a factor in [0, 1] lands between 0 and d. */
  lemma ScaleBetween(d: real, c: real)
    requires 0.0 <= c <= 1.0
    ensures Between(Scale(d, c), 0.0, d)
  {
    if d >= 0.0 {
      assert d * c <= d * 1.0;
    } else {
      assert d * c >= d * 1.0;
    }
  }

  /** Absolute value, used to state the window of Random.Range draws. */
  function Abs(x: real): (r: real)
    ensures r >= 0.0 && (r == x || r == -x)
  {
    if x < 0.0 then -x else x
  }

  /** Mathf.CeilToInt: the least integer not below x. */
  function CeilToInt(x: real): (n: int)
    ensures n as real - 1.0 < x <= n as real
  {
    -((-x).Floor)
  }

  /** The specification of CeilToInt determines its value. */
  lemma CeilToIntUnique(x: real, n: int)
    requires n as real - 1.0 < x <= n as real
    ensures CeilToInt(x) == n
  {
    var m := CeilToInt(x);
    assert m as real - 1.0 < n as real && n as real - 1.0 < m as real;
  }

  /** A positive amount scaled by a positive factor stays positive. */
  lemma ScalePositive(d: real, c: real)
    requires d > 0.0 && c > 0.0
    ensures Scale(d, c) > 0.0
  {
  }

  /** The contract of Random.value: a float in [0, 1], both ends included. */
  predicate RandomValue(x: real)
  {
    0.0 <= x <= 1.0
  }

  /** The contract of Random.Range(min, max) on floats: a value between min and
      max, both included; Unity swaps the bounds when min > max. */
  predicate RandomRange(min: real, max: real, x: real)
  {
    Between(x, min, max)
  }
}
