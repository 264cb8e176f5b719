// Small helpers shared by the four games: an Option type, absolute value,
// linear interpolation as three.js defines it, and the one-lane-step clamps.

module Common {

  datatype Option<T> = None | Some(value: T)

  function Abs(x: real): (r: real)
    ensures r >= 0.0
    ensures r == x || r == -x
  {
    if x < 0.0 then -x else x
  }

  function Min(a: real, b: real): (r: real)
    ensures r <= a && r <= b && (r == a || r == b)
  {
    if a <= b then a else b
  }

  function Max(a: real, b: real): (r: real)
    ensures r >= a && r >= b && (r == a || r == b)
  {
    if a >= b then a else b
  }

  /** THREE.MathUtils.lerp(x, y, t) = (1 - t) * x + t * y. The remaining distance
    * to the target y is the old distance scaled by (1 - t). */
  function Lerp(x: real, y: real, t: real): (r: real)
    ensures r - y == (1.0 - t) * (x - y)
  {
    (1.0 - t) * x + t * y
  }

  /** With a coefficient in [0, 1] one smoothing step lands between the old
    * position and the target, never overshoots, and never moves away from it. */
  lemma LerpApproaches(x: real, y: real, t: real)
    requires 0.0 <= t <= 1.0
    ensures Min(x, y) <= Lerp(x, y, t) <= Max(x, y)
    ensures Abs(Lerp(x, y, t) - y) == (1.0 - t) * Abs(x - y)
    ensures Abs(Lerp(x, y, t) - y) <= Abs(x - y)
  {
    var r := Lerp(x, y, t);
    var u := 1.0 - t;
    if x <= y {
      MulNonNeg(u, y - x);
      MulNonNeg(t, y - x);
      assert u * (x - y) == -(u * (y - x));
      assert u * (x - y) - (x - y) == t * (y - x);
    } else {
      MulNonNeg(u, x - y);
      MulNonNeg(t, x - y);
      assert (x - y) - u * (x - y) == t * (x - y);
    }
  }

  lemma MulNonNeg(a: real, b: real)
    requires a >= 0.0 && b >= 0.0
    ensures a * b >= 0.0
  {
  }

  /** Math.max(-1, lane - 1): one lane to the left, stopping at lane -1. */
  function LaneLeft(lane: int): (r: int)
    ensures -1 <= r
    ensures lane >= -1 ==> r <= lane
    ensures r == lane - 1 || r == -1
    ensures lane > -1 ==> r == lane - 1
  {
    if lane - 1 < -1 then -1 else lane - 1
  }

  /** Math.min(1, lane + 1): one lane to the right, stopping at lane 1. */
  function LaneRight(lane: int): (r: int)
    ensures r <= 1
    ensures lane <= 1 ==> lane <= r
    ensures r == lane + 1 || r == 1
    ensures lane < 1 ==> r == lane + 1
  {
    if lane + 1 > 1 then 1 else lane + 1
  }
}
