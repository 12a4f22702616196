/**
 * Shared numeric helpers of the engine: the CLAMP macro, the C conversion
 * of a float to an int (truncation toward zero), and the
 * three-component angle vector (PITCH, YAW, ROLL) used by the client, the
 * renderer and the head-tracking code.
 *
 * Floats are modelled as mathematical reals: IEEE rounding is not modelled.
 */
module QCommon {

  /** A vec3_t of Euler angles in degrees, indexed PITCH = 0, YAW = 1, ROLL = 2. */
  datatype Angles = Angles(pitch: real, yaw: real, roll: real)

  const Zero: Angles := Angles(0.0, 0.0, 0.0)

  datatype Option<T> = None | Some(value: T)

  /**
   * The head orientation added to a set of angles, as done for the view
   * model and other single-view call sites: pitch and yaw are offset by the
   * head's, roll is replaced by the head's.
   */
  function AddOrientation(angles: Angles, orientation: Angles): Angles
  {
    Angles(angles.pitch + orientation.pitch, angles.yaw + orientation.yaw, orientation.roll)
  }

  /**
   * The deadzone cvar callbacks: the value is clamped to [0, 70] degrees and
   * written back only when clamping changed it. The write re-runs the
   * callback, so `Some` means one more callback invocation.
   */
  function DeadzoneWrite(value: real): (w: Option<real>)
    ensures w.Some? <==> !(0.0 <= value <= 70.0)
    ensures w.Some? ==> 0.0 <= w.value <= 70.0
    ensures w.Some? && value < 0.0 ==> w.value == 0.0
    ensures w.Some? && value > 70.0 ==> w.value == 70.0
  {
    var deadzone := Clamp(0.0, value, 70.0);
    if deadzone != value then Some(deadzone) else None
  }

  /** The callback chain stops: the value written back is left alone by the next invocation. */
  lemma DeadzoneWriteSettles(value: real)
    ensures DeadzoneWrite(value).Some? ==> DeadzoneWrite(DeadzoneWrite(value).value) == None
  {
  }

  /** CLAMP(lo, x, hi): x below lo gives lo, x above hi gives hi, else x. */
  function Clamp(lo: real, x: real, hi: real): (r: real)
    ensures lo <= hi ==> lo <= r <= hi
    ensures lo <= x <= hi ==> r == x
    ensures x < lo ==> r == lo
    ensures lo <= x && hi < x ==> r == hi
  {
    if x < lo then lo else if x > hi then hi else x
  }

  /** The same macro on ints. */
  function ClampInt(lo: int, x: int, hi: int): (r: int)
    ensures lo <= hi ==> lo <= r <= hi
    ensures lo <= x <= hi ==> r == x
    ensures x < lo ==> r == lo
    ensures lo <= x && hi < x ==> r == hi
  {
    if x < lo then lo else if x > hi then hi else x
  }

  /** `(int) x` for a float x: rounds toward zero. */
  function Trunc(x: real): (r: int)
    ensures 0.0 <= x ==> 0 <= r && r as real <= x < r as real + 1.0
    ensures x < 0.0 ==> r <= 0 && r as real - 1.0 < x <= r as real
  {
    if x >= 0.0 then x.Floor else -((-x).Floor)
  }

  /** C's `/` on ints with a positive divisor: the quotient rounds toward zero. */
  function TruncDiv(a: int, b: int): (q: int)
    requires b > 0
    ensures 0 <= a ==> 0 <= q && q * b <= a < q * b + b
    ensures a < 0 ==> q <= 0 && q * b - b < a <= q * b
  {
    if a >= 0 then a / b else -((-a) / b)
  }

  function Abs(n: int): (r: nat)
    ensures r == n || r == -n
  {
    if n < 0 then -n else n
  }

  /** A float-to-int conversion never moves a value away from zero. */
  lemma TruncTowardZero(x: real)
    ensures Abs(Trunc(x)) as real <= (if x < 0.0 then -x else x)
    ensures (if x < 0.0 then -x else x) < Abs(Trunc(x)) as real + 1.0
  {
  }
}
