/** The vector and matrix vocabulary the camera is written in.
    The renderer's own matrix library (Vectorf3, Matrix4x4 and their
    operators) is not part of this model; these are the standard
    definitions, over reals instead of single-precision floats. */
module Matrix {

  /** M_PI as the C math header spells it; M_PI_2 is exactly half of it. */
  const Pi: real := 3.14159265358979323846
  const HalfPi: real := Pi / 2.0

  datatype Vec3 = Vec3(x: real, y: real, z: real)
  datatype Vec4 = Vec4(x: real, y: real, z: real, w: real)

  /** A 4x4 matrix stored by rows, the order in which Matrix4x4 is initialised. */
  datatype Mat4 = Mat4(r0: Vec4, r1: Vec4, r2: Vec4, r3: Vec4)

  /** The rotation axes of the matrix library; the camera turns about X and Y. */
  datatype Axis = X | Y | Z

  /** cos, sin and tan of <cmath>, and Vectorf3::Normalize (which divides by a
      square root), kept uninterpreted: every camera operation takes them as
      a parameter and nothing is assumed about their values. */
  datatype Math = Math(cos: real -> real, sin: real -> real, tan: real -> real, normalize: Vec3 -> Vec3)

  /** Vectorf3::Normalize, through the uninterpreted function of m. */
  function Normalize(m: Math, v: Vec3): Vec3
  {
    m.normalize(v)
  }

  /** 1.f / x. A zero denominator, which yields an infinity in floating
      point, has no real counterpart and is given the value 0. */
  function Recip(x: real): real
  {
    if x == 0.0 then 0.0 else 1.0 / x
  }

  /** a / b in floating point, with the same convention for b == 0. */
  function Div(a: real, b: real): real
  {
    a * Recip(b)
  }

  function Add(a: Vec3, b: Vec3): Vec3 { Vec3(a.x + b.x, a.y + b.y, a.z + b.z) }
  function Sub(a: Vec3, b: Vec3): Vec3 { Vec3(a.x - b.x, a.y - b.y, a.z - b.z) }
  function Neg(a: Vec3): Vec3 { Vec3(-a.x, -a.y, -a.z) }
  function Scale(a: Vec3, k: real): Vec3 { Vec3(a.x * k, a.y * k, a.z * k) }
  function Dot(a: Vec3, b: Vec3): real { a.x * b.x + a.y * b.y + a.z * b.z }
  function Cross(a: Vec3, b: Vec3): Vec3
  {
    Vec3(a.y * b.z - a.z * b.y, a.z * b.x - a.x * b.z, a.x * b.y - a.y * b.x)
  }

  /** The cross product is orthogonal to both of its factors. */
  lemma CrossOrthogonal(a: Vec3, b: Vec3)
    ensures Dot(Cross(a, b), a) == 0.0 && Dot(Cross(a, b), b) == 0.0
  {
  }

  function Dot4(a: Vec4, b: Vec4): real { a.x * b.x + a.y * b.y + a.z * b.z + a.w * b.w }

  /** The homogeneous point (v, 1). */
  function Point(v: Vec3): Vec4 { Vec4(v.x, v.y, v.z, 1.0) }

  /** Matrix times column vector. */
  function Apply(m: Mat4, p: Vec4): Vec4
  {
    Vec4(Dot4(m.r0, p), Dot4(m.r1, p), Dot4(m.r2, p), Dot4(m.r3, p))
  }

  function Transpose(m: Mat4): Mat4
  {
    Mat4(Vec4(m.r0.x, m.r1.x, m.r2.x, m.r3.x),
         Vec4(m.r0.y, m.r1.y, m.r2.y, m.r3.y),
         Vec4(m.r0.z, m.r1.z, m.r2.z, m.r3.z),
         Vec4(m.r0.w, m.r1.w, m.r2.w, m.r3.w))
  }

  /** The matrix product a * b: entry (i, j) is row i of a dotted with column j of b. */
  function MatMul(a: Mat4, b: Mat4): Mat4
  {
    var t := Transpose(b);
    Mat4(Apply(t, a.r0), Apply(t, a.r1), Apply(t, a.r2), Apply(t, a.r3))
  }

  /** Translating two points by the same vector keeps the vector between them. */
  lemma SubAddCancel(a: Vec3, b: Vec3, v: Vec3)
    ensures Sub(Add(a, v), Add(b, v)) == Sub(a, b)
  {
  }

  /** Row i of a product is row i of the left factor taken through the right factor. */
  lemma RowOfProduct(a: Mat4, b: Mat4, p: Vec4)
    ensures Dot4(Apply(Transpose(b), a.r0), p) == Dot4(a.r0, Apply(b, p))
    ensures Dot4(Apply(Transpose(b), a.r1), p) == Dot4(a.r1, Apply(b, p))
    ensures Dot4(Apply(Transpose(b), a.r2), p) == Dot4(a.r2, Apply(b, p))
    ensures Dot4(Apply(Transpose(b), a.r3), p) == Dot4(a.r3, Apply(b, p))
  {
    RowThrough(a.r0, b, p);
    RowThrough(a.r1, b, p);
    RowThrough(a.r2, b, p);
    RowThrough(a.r3, b, p);
  }

  lemma RowThrough(r: Vec4, b: Mat4, p: Vec4)
    ensures Dot4(Apply(Transpose(b), r), p) == Dot4(r, Apply(b, p))
  {
    var t := Transpose(b);
    calc {
      Dot4(Apply(t, r), p);
      (r.x * b.r0.x + r.y * b.r1.x + r.z * b.r2.x + r.w * b.r3.x) * p.x
        + (r.x * b.r0.y + r.y * b.r1.y + r.z * b.r2.y + r.w * b.r3.y) * p.y
        + (r.x * b.r0.z + r.y * b.r1.z + r.z * b.r2.z + r.w * b.r3.z) * p.z
        + (r.x * b.r0.w + r.y * b.r1.w + r.z * b.r2.w + r.w * b.r3.w) * p.w;
      r.x * Dot4(b.r0, p) + r.y * Dot4(b.r1, p) + r.z * Dot4(b.r2, p) + r.w * Dot4(b.r3, p);
      Dot4(r, Apply(b, p));
    }
  }

  /** The product a * b applied to a point is b applied first, then a: the
      combined view-projection matrix projects what the view matrix moved. */
  lemma ApplyMatMul(a: Mat4, b: Mat4, p: Vec4)
    ensures Apply(MatMul(a, b), p) == Apply(a, Apply(b, p))
  {
    RowOfProduct(a, b, p);
  }
}
