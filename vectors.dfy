/** Three-component real vectors: the (x, y, z) triples that the engine keeps in
    its flat position, previous-position and normal buffers, and the few
    algebraic facts about them that the rest of the model uses. */
module Vectors {

  datatype Vec3 = Vec3(x: real, y: real, z: real)

  const Zero: Vec3 := Vec3(0.0, 0.0, 0.0)

  function Add(u: Vec3, v: Vec3): Vec3 {
    Vec3(u.x + v.x, u.y + v.y, u.z + v.z)
  }

  function Sub(u: Vec3, v: Vec3): Vec3 {
    Vec3(u.x - v.x, u.y - v.y, u.z - v.z)
  }

  function Scale(v: Vec3, k: real): Vec3 {
    Vec3(v.x * k, v.y * k, v.z * k)
  }

  /** Component-wise division, as `nrm[i3] /= len` divides each component. */
  function Div(v: Vec3, k: real): Vec3
    requires k != 0.0
  {
    Vec3(v.x / k, v.y / k, v.z / k)
  }

  function Dot(u: Vec3, v: Vec3): real {
    u.x * v.x + u.y * v.y + u.z * v.z
  }

  /** The non-normalised cross product, component by component. */
  function Cross(u: Vec3, v: Vec3): Vec3 {
    Vec3(u.y * v.z - u.z * v.y, u.z * v.x - u.x * v.z, u.x * v.y - u.y * v.x)
  }

  function Sq(a: real): real {
    a * a
  }

  /** Squared Euclidean length. */
  function NormSq(v: Vec3): real {
    Sq(v.x) + Sq(v.y) + Sq(v.z)
  }

  /** `sqrt` behaves as the square root on the non-negative reals: the only
      thing the model assumes of `Math.sqrt` and `Math.hypot`. */
  ghost predicate IsSqrt(sqrt: real -> real) {
    forall x: real :: x >= 0.0 ==> sqrt(x) >= 0.0 && Sq(sqrt(x)) == x
  }

  lemma SqNonNegative(a: real)
    ensures Sq(a) >= 0.0
  {
  }

  lemma MulNonNegative(a: real, b: real)
    requires a >= 0.0 && b >= 0.0
    ensures a * b >= 0.0
  {
  }

  lemma MulZero(a: real, b: real)
    requires b != 0.0 && a * b == 0.0
    ensures a == 0.0
  {
    assert a == (a * b) / b;
  }

  lemma SqZero(a: real)
    ensures Sq(a) == 0.0 <==> a == 0.0
  {
    if a != 0.0 && Sq(a) == 0.0 {
      MulZero(a, a);
    }
  }

  /** A vector has squared length zero exactly when it is the zero vector. */
  lemma NormSqZero(v: Vec3)
    ensures NormSq(v) >= 0.0
    ensures NormSq(v) == 0.0 <==> v == Zero
  {
    SqNonNegative(v.x);
    SqNonNegative(v.y);
    SqNonNegative(v.z);
    SqZero(v.x);
    SqZero(v.y);
    SqZero(v.z);
  }

  /** The root of a non-negative number is positive exactly when the number is. */
  lemma SqrtPositive(sqrt: real -> real, x: real)
    requires IsSqrt(sqrt) && x >= 0.0
    ensures sqrt(x) >= 0.0 && Sq(sqrt(x)) == x
    ensures sqrt(x) > 0.0 <==> x > 0.0
  {
    SqZero(sqrt(x));
  }

  lemma NormSqScale(v: Vec3, k: real)
    ensures NormSq(Scale(v, k)) == Sq(k) * NormSq(v)
  {
  }

  lemma DivIsScale(v: Vec3, k: real)
    requires k != 0.0
    ensures Div(v, k) == Scale(v, 1.0 / k)
  {
  }

  /** Dividing a vector by its (positive) length gives a unit vector. */
  lemma DivByLength(v: Vec3, len: real)
    requires len > 0.0 && Sq(len) == NormSq(v)
    ensures NormSq(Div(v, len)) == 1.0
  {
    DivIsScale(v, len);
    NormSqScale(v, 1.0 / len);
    assert Sq(1.0 / len) * Sq(len) == 1.0;
  }

  /** Rescaling a vector of length `len` by `r / len` gives length `r`. */
  lemma ScaleToLength(v: Vec3, len: real, r: real)
    requires len > 0.0 && Sq(len) == NormSq(v)
    ensures NormSq(Scale(v, r / len)) == Sq(r)
  {
    NormSqScale(v, r / len);
    assert Sq(r / len) * Sq(len) == Sq(r);
  }

  /** The cross product is orthogonal to both of its arguments. */
  lemma CrossOrthogonal(u: Vec3, v: Vec3)
    ensures Dot(Cross(u, v), u) == 0.0
    ensures Dot(Cross(u, v), v) == 0.0
  {
  }
}
