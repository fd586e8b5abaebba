/** The three.js Vector3 operations that the simulation uses (length, lerp, add,
    multiplyScalar, divideScalar, normalize), on real coordinates. */
module Vectors {
  import opened Elementary
  import opened Common

  datatype Vec3 = Vec3(x: real, y: real, z: real)

  const Origin: Vec3 := Vec3(0.0, 0.0, 0.0)

  /** x² + y² + z², the square of the Euclidean length. */
  function LengthSq(v: Vec3): (r: real)
    ensures r >= 0.0
    ensures r == 0.0 <==> v == Origin
  {
    SquareStrictlyIncreasing(0.0, Abs(v.x));
    SquareStrictlyIncreasing(0.0, Abs(v.y));
    SquareStrictlyIncreasing(0.0, Abs(v.z));
    v.x * v.x + v.y * v.y + v.z * v.z
  }

  /** Vector3.length(): the square root of LengthSq. */
  function Length(f: Functions, v: Vec3): real {
    f.sqrt(LengthSq(v))
  }

  function Add(a: Vec3, b: Vec3): Vec3 {
    Vec3(a.x + b.x, a.y + b.y, a.z + b.z)
  }

  function Scale(v: Vec3, k: real): Vec3 {
    Vec3(v.x * k, v.y * k, v.z * k)
  }

  /** Vector3.lerp(b, alpha): each coordinate moves by alpha times its distance to b. */
  function Lerp(a: Vec3, b: Vec3, alpha: real): (r: Vec3)
    ensures alpha == 0.0 ==> r == a
    ensures alpha == 1.0 ==> r == b
  {
    Vec3(a.x + (b.x - a.x) * alpha, a.y + (b.y - a.y) * alpha, a.z + (b.z - a.z) * alpha)
  }

  /** Vector3.normalize(): divide by the length, or by 1 when the length is 0. */
  function Normalize(f: Functions, v: Vec3): Vec3 {
    var len := Length(f, v);
    Scale(v, 1.0 / (if len == 0.0 then 1.0 else len))
  }

  lemma LengthOfOrigin(f: Functions)
    requires SqrtLaws(f)
    ensures Length(f, Origin) == 0.0
  {
    SqrtUnique(f, 0.0, 0.0);
  }

  /** A vector is at distance 0 exactly when it is the origin. */
  lemma LengthZeroIffOrigin(f: Functions, v: Vec3)
    requires SqrtLaws(f)
    ensures Length(f, v) >= 0.0
    ensures Length(f, v) == 0.0 <==> v == Origin
  {
    SqrtZeroIff(f, LengthSq(v));
  }

  /** The length of a vector whose squared length is d² (d ≥ 0) is d. */
  lemma LengthFromSquare(f: Functions, v: Vec3, d: real)
    requires SqrtLaws(f)
    requires 0.0 <= d && LengthSq(v) == d * d
    ensures Length(f, v) == d
  {
    SqrtUnique(f, LengthSq(v), d);
  }

  /** Scaling by a non-negative k multiplies the length by k. */
  lemma LengthOfScale(f: Functions, v: Vec3, k: real)
    requires SqrtLaws(f)
    requires 0.0 <= k
    ensures Length(f, Scale(v, k)) == k * Length(f, v)
  {
    var len := Length(f, v);
    assert 0.0 <= len && len * len == LengthSq(v);
    calc {
      LengthSq(Scale(v, k));
      (v.x * k) * (v.x * k) + (v.y * k) * (v.y * k) + (v.z * k) * (v.z * k);
      (k * k) * LengthSq(v);
      (k * k) * (len * len);
      (k * len) * (k * len);
    }
    LengthFromSquare(f, Scale(v, k), k * len);
  }

  /** normalize() gives a unit vector for every vector but the origin. */
  lemma NormalizeIsUnit(f: Functions, v: Vec3)
    requires SqrtLaws(f)
    requires v != Origin
    ensures Length(f, Normalize(f, v)) == 1.0
  {
    var len := Length(f, v);
    LengthZeroIffOrigin(f, v);
    LengthOfScale(f, v, 1.0 / len);
  }
}
