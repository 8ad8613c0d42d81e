/**
 * Vector math of the orbit-camera shape engine: 3D points, the host's
 * Math functions, and normalize / cross / dot.
 */
module Vector {

  /** A point or direction in world space. */
  datatype Vec3 = Vec3(x: real, y: real, z: real)

  /** A point in screen space: origin at the top left, y grows downward. */
  datatype Point2D = Point2D(x: real, y: real)

  /**
   * The host's `Math.sin`, `Math.cos`, `Math.sqrt` and `Math.PI`. They are
   * parameters of the model, constrained only where a lemma needs it.
   */
  datatype MathLib = MathLib(sin: real -> real, cos: real -> real, sqrt: real -> real, pi: real)

  const Zero := Vec3(0.0, 0.0, 0.0)

  /** What `normalize` returns for a vector of length zero. */
  const Fallback := Vec3(0.0, 0.0, 1.0)

  /**
   * The facts of `Math.sqrt` the lemmas use: the root of 0 is 0, and the root
   * of a positive number is positive and squares back to it.
   */
  ghost predicate SqrtSound(m: MathLib) {
    m.sqrt(0.0) == 0.0 &&
    forall x: real {:trigger m.sqrt(x)} :: 0.0 < x ==> 0.0 < m.sqrt(x) && m.sqrt(x) * m.sqrt(x) == x
  }

  /** sin² + cos² = 1 at the angle `a`. */
  ghost predicate Pythagorean(m: MathLib, a: real) {
    m.sin(a) * m.sin(a) + m.cos(a) * m.cos(a) == 1.0
  }

  /** `(i / n) * Math.PI * 2`: step `i` of `n` equal steps around a full turn. */
  function Turn(m: MathLib, i: int, n: int): real
    requires n != 0
  {
    (i as real / n as real) * m.pi * 2.0
  }

  /** `(i / n) * Math.PI`: step `i` of `n` equal steps around a half turn. */
  function HalfTurn(m: MathLib, i: int, n: int): real
    requires n != 0
  {
    (i as real / n as real) * m.pi
  }

  function Sub(a: Vec3, b: Vec3): Vec3 {
    Vec3(a.x - b.x, a.y - b.y, a.z - b.z)
  }

  function Neg(a: Vec3): Vec3 {
    Vec3(-a.x, -a.y, -a.z)
  }

  function Scale(k: real, a: Vec3): Vec3 {
    Vec3(k * a.x, k * a.y, k * a.z)
  }

  /** `dot(a, b)`. */
  function Dot(a: Vec3, b: Vec3): real {
    a.x * b.x + a.y * b.y + a.z * b.z
  }

  /** `cross(a, b)`. */
  function Cross(a: Vec3, b: Vec3): Vec3 {
    Vec3(a.y * b.z - a.z * b.y,
         a.z * b.x - a.x * b.z,
         a.x * b.y - a.y * b.x)
  }

  function SqNorm(a: Vec3): real {
    Dot(a, a)
  }

  /** The length `normalize` computes: `Math.sqrt(x*x + y*y + z*z)`. */
  function Length(m: MathLib, v: Vec3): real {
    m.sqrt(v.x * v.x + v.y * v.y + v.z * v.z)
  }

  /** `normalize(v)`: `v` divided by its length, or (0,0,1) when the length is not positive. */
  function Normalize(m: MathLib, v: Vec3): Vec3 {
    var len := Length(m, v);
    if len > 0.0 then Vec3(v.x / len, v.y / len, v.z / len) else Fallback
  }

  lemma MulPositive(a: real, b: real)
    requires 0.0 < a && 0.0 < b
    ensures 0.0 < a * b
  {
  }

  /** A square is never negative, and positive when its root is not zero. */
  lemma Square(a: real)
    ensures !(a * a < 0.0)
    ensures a != 0.0 ==> 0.0 < a * a
  {
    if 0.0 < a {
      MulPositive(a, a);
    } else if a < 0.0 {
      MulPositive(-a, -a);
      assert (-a) * (-a) == a * a;
    }
  }

  lemma SumOfSquaresPositiveX(a: real, b: real, c: real)
    requires a != 0.0
    ensures 0.0 < a * a + b * b + c * c
  {
    Square(a);
    Square(b);
    Square(c);
  }

  lemma SumOfSquaresPositiveY(a: real, b: real, c: real)
    requires b != 0.0
    ensures 0.0 < a * a + b * b + c * c
  {
    Square(a);
    Square(b);
    Square(c);
  }

  lemma SumOfSquaresPositiveZ(a: real, b: real, c: real)
    requires c != 0.0
    ensures 0.0 < a * a + b * b + c * c
  {
    Square(a);
    Square(b);
    Square(c);
  }

  /** The sum of the squared coordinates of a non-zero vector is positive. */
  lemma SumOfSquaresPositive(v: Vec3)
    requires v != Zero
    ensures 0.0 < v.x * v.x + v.y * v.y + v.z * v.z
  {
    if v.x != 0.0 {
      SumOfSquaresPositiveX(v.x, v.y, v.z);
    } else if v.y != 0.0 {
      SumOfSquaresPositiveY(v.x, v.y, v.z);
    } else {
      SumOfSquaresPositiveZ(v.x, v.y, v.z);
    }
  }

  /**
   * normalize: the zero vector gives exactly (0,0,1); any other vector has a
   * positive length that squares to its squared norm, and is scaled by the
   * reciprocal of that length, so that the result has length 1.
   */
  lemma NormalizeSpec(m: MathLib, v: Vec3)
    requires SqrtSound(m)
    ensures v == Zero ==> Normalize(m, v) == Fallback
    ensures v != Zero ==> 0.0 < Length(m, v) &&
                          Length(m, v) * Length(m, v) == SqNorm(v) &&
                          Normalize(m, v) == Scale(1.0 / Length(m, v), v) &&
                          Scale(Length(m, v), Normalize(m, v)) == v
    ensures v != Zero ==> SqNorm(Normalize(m, v)) == 1.0
  {
    if v == Zero {
      assert Length(m, v) == m.sqrt(0.0);
    } else {
      SumOfSquaresPositive(v);
      DivideByLength(v, Length(m, v));
      UnitScale(v, Length(m, v));
    }
  }

  /** Scaling a vector by the reciprocal of its length gives squared norm 1. */
  lemma UnitScale(v: Vec3, len: real)
    requires 0.0 < len && len * len == SqNorm(v)
    ensures SqNorm(Scale(1.0 / len, v)) == 1.0
  {
    var k := 1.0 / len;
    DotScale(k, v, Scale(k, v));
    DotScale(k, v, v);
    calc {
      SqNorm(Scale(k, v));
      k * (k * SqNorm(v));
      k * (k * (len * len));
      (k * len) * (k * len);
      1.0;
    }
  }

  /** Dividing each coordinate by `len` scales the vector by `1 / len`. */
  lemma DivideByLength(v: Vec3, len: real)
    requires 0.0 < len
    ensures Vec3(v.x / len, v.y / len, v.z / len) == Scale(1.0 / len, v)
    ensures Scale(len, Vec3(v.x / len, v.y / len, v.z / len)) == v
  {
  }

  /** cross(a, b) is orthogonal to both of its arguments. */
  lemma CrossOrthogonal(a: Vec3, b: Vec3)
    ensures Dot(Cross(a, b), a) == 0.0
    ensures Dot(Cross(a, b), b) == 0.0
  {
  }

  /** cross is anti-symmetric. */
  lemma CrossAntiSymmetric(a: Vec3, b: Vec3)
    ensures Cross(a, b) == Neg(Cross(b, a))
  {
  }

  /** dot is symmetric. */
  lemma DotSymmetric(a: Vec3, b: Vec3)
    ensures Dot(a, b) == Dot(b, a)
  {
  }

  lemma DotScale(k: real, a: Vec3, b: Vec3)
    ensures Dot(Scale(k, a), b) == k * Dot(a, b)
    ensures Dot(a, Scale(k, b)) == k * Dot(a, b)
  {
  }

  lemma CrossScale(k: real, a: Vec3, b: Vec3)
    ensures Cross(a, Scale(k, b)) == Scale(k, Cross(a, b))
  {
    assert a.y * (k * b.z) - a.z * (k * b.y) == k * (a.y * b.z - a.z * b.y);
    assert a.z * (k * b.x) - a.x * (k * b.z) == k * (a.z * b.x - a.x * b.z);
    assert a.x * (k * b.y) - a.y * (k * b.x) == k * (a.x * b.y - a.y * b.x);
  }
}
