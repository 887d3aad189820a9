/** Small linear-algebra vocabulary used by the viewer: three- and
    four-component vectors over the reals, a 4x4 matrix stored by rows, and
    the pure helpers of main.cpp that build a projection from a view box. */
module Geometry {

  datatype Vec3 = Vec3(x: real, y: real, z: real)

  datatype Vec4 = Vec4(x: real, y: real, z: real, w: real)

  /** A 4x4 matrix given by its rows; it acts on column vectors. */
  datatype Mat4 = Mat4(r0: Vec4, r1: Vec4, r2: Vec4, r3: Vec4)

  /** Component `k` (0 = x, 1 = y, 2 = z) of a vector. */
  function Coord(p: Vec3, k: nat): real
    requires k < 3
  {
    if k == 0 then p.x else if k == 1 then p.y else p.z
  }

  function Dot(a: Vec4, b: Vec4): real
  {
    a.x * b.x + a.y * b.y + a.z * b.z + a.w * b.w
  }

  /** The matrix-vector product M * v. */
  function Apply(m: Mat4, v: Vec4): Vec4
  {
    Vec4(Dot(m.r0, v), Dot(m.r1, v), Dot(m.r2, v), Dot(m.r3, v))
  }

  /** A point of eye space in homogeneous coordinates. */
  function Point(x: real, y: real, z: real): Vec4
  {
    Vec4(x, y, z, 1.0)
  }

  /** The approximation of pi that main.cpp writes out. */
  const PI: real := 3.1415926535

  /** Degrees to radians. */
  function DegToRad(deg: real): (rad: real)
    ensures rad * 180.0 == deg * PI
    ensures deg == 180.0 ==> rad == PI
    ensures deg == 0.0 ==> rad == 0.0
  {
    deg * PI / 180.0
  }

  /** The aspect ratio of a framebuffer, with 1 as the answer when the
      height is not positive (a minimised window). */
  function Aspect(fbW: int, fbH: int): (a: real)
    ensures fbH > 0 ==> a * (fbH as real) == fbW as real
    ensures fbH <= 0 ==> a == 1.0
  {
    if fbH > 0 then (fbW as real) / (fbH as real) else 1.0
  }

  /** The glOrtho-style projection of the box [l,r] x [b,t] x [-f,-n]
      (eye space looks down -z) onto the cube [-1,1]^3. */
  function MakeOrthographic(l: real, r: real, b: real, t: real, n: real, f: real): (m: Mat4)
    requires r != l && t != b && f != n
    // the left, bottom and near planes go to -1
    ensures Apply(m, Point(l, b, -n)) == Vec4(-1.0, -1.0, -1.0, 1.0)
    // the right, top and far planes go to +1
    ensures Apply(m, Point(r, t, -f)) == Vec4(1.0, 1.0, 1.0, 1.0)
    // each axis is handled on its own, and w stays 1
    ensures forall x, y, z ::
      var p := Apply(m, Point(x, y, z));
      p.x * (r - l) == 2.0 * x - (r + l) &&
      p.y * (t - b) == 2.0 * y - (t + b) &&
      p.z * (f - n) == -2.0 * z - (f + n) &&
      p.w == 1.0
  {
    var invRL := 1.0 / (r - l);
    var invTB := 1.0 / (t - b);
    var invFN := 1.0 / (f - n);
    Mat4(Vec4(2.0 * invRL, 0.0, 0.0, -(r + l) * invRL),
         Vec4(0.0, 2.0 * invTB, 0.0, -(t + b) * invTB),
         Vec4(0.0, 0.0, -2.0 * invFN, -(f + n) * invFN),
         Vec4(0.0, 0.0, 0.0, 1.0))
  }
}
