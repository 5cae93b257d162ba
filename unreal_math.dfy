/**
 * The handful of engine math helpers the gameplay code relies on, over exact reals.
 * Unreal's single-precision floats are modelled as `real`; `int32` as `int`.
 */
module UnrealMath {
  /** FVector; only equality with the zero vector is ever inspected. */
  datatype Vec = Vec(x: real, y: real, z: real)

  const ZeroVector := Vec(0.0, 0.0, 0.0)

  /** FVector::IsZero. */
  predicate IsZero(v: Vec) { v.x == 0.0 && v.y == 0.0 && v.z == 0.0 }

  function AbsR(a: real): (r: real)
    ensures r >= 0.0 && (r == a || r == -a)
  {
    if a < 0.0 then -a else a
  }

  /** FVector::IsNearlyZero(tolerance): every component within the tolerance of 0. */
  predicate IsNearlyZero(v: Vec, tolerance: real)
  {
    AbsR(v.x) <= tolerance && AbsR(v.y) <= tolerance && AbsR(v.z) <= tolerance
  }

  /** FMath::Max over floats. */
  function MaxR(a: real, b: real): (r: real)
    ensures r >= a && r >= b && (r == a || r == b)
  {
    if a >= b then a else b
  }

  /** FMath::Clamp(v, lo, hi) as the engine writes it: `v < lo ? lo : v < hi ? v : hi`. */
  function ClampR(v: real, lo: real, hi: real): (r: real)
    ensures lo <= hi ==> lo <= r <= hi
    ensures lo <= v <= hi ==> r == v
  {
    if v < lo then lo else if v < hi then v else hi
  }

  /** The float-to-int32 conversion of C++ (truncation toward zero); wrap-around is not modelled. */
  function TruncToInt(v: real): (r: int)
    ensures v >= 0.0 ==> r as real <= v < r as real + 1.0
    ensures v < 0.0 ==> r as real - 1.0 < v <= r as real
  {
    if v >= 0.0 then v.Floor else -((-v).Floor)
  }

  /** FVector addition. */
  function VAdd(a: Vec, b: Vec): Vec
  {
    Vec(a.x + b.x, a.y + b.y, a.z + b.z)
  }

  /** FVector scaled by a float. */
  function VScale(v: Vec, k: real): Vec
  {
    Vec(v.x * k, v.y * k, v.z * k)
  }

  /** FVector::SizeSquared; Size is its square root, which preserves order between sizes. */
  function SizeSquared(v: Vec): (r: real)
    ensures r >= 0.0
  {
    v.x * v.x + v.y * v.y + v.z * v.z
  }

  /** FRotator (pitch, yaw, roll in degrees). */
  datatype Rotator = Rotator(pitch: real, yaw: real, roll: real)

  const ZeroRotator := Rotator(0.0, 0.0, 0.0)

  /** C++ integer division, which truncates toward zero. */
  function DivTrunc(a: int, b: int): (q: int)
    requires b != 0
    ensures a >= 0 && b > 0 ==> q == a / b
  {
    if (a >= 0) == (b > 0) then (if a >= 0 then a / b else (-a) / (-b))
    else -((if a >= 0 then a else -a) / (if b > 0 then b else -b))
  }

  /** C++ remainder, which takes the sign of the dividend: a == DivTrunc(a, b) * b + RemTrunc(a, b). */
  function RemTrunc(a: int, b: int): (r: int)
    requires b != 0
    ensures a == DivTrunc(a, b) * b + r
    ensures a >= 0 && b > 0 ==> r == a % b
  {
    a - DivTrunc(a, b) * b
  }
}
