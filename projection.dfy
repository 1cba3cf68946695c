/** The matrix builders of Camera.cpp: the look-at view matrix and the three
    projections. They read their arguments only and return a new matrix. */
module Projection {
  import opened Matrix

  /** The view matrix SetView builds from the unit gaze `forward`, the up
      vector and the eye: rows (xC, yC, zC) with zC = -forward,
      xC = normalize(up x zC), yC = zC x xC, each with translation
      -(row . eye), and the homogeneous row (0, 0, 0, 1). Whatever
      normalize does, the third rotation row is the backward direction and
      the second is orthogonal to the other two. */
  function LookAtMatrix(m: Math, forward: Vec3, up: Vec3, eye: Vec3): (r: Mat4)
    ensures r.r3 == Vec4(0.0, 0.0, 0.0, 1.0)
    ensures Vec3(r.r2.x, r.r2.y, r.r2.z) == Neg(forward)
    ensures Dot(Vec3(r.r1.x, r.r1.y, r.r1.z), Vec3(r.r0.x, r.r0.y, r.r0.z)) == 0.0
    ensures Dot(Vec3(r.r1.x, r.r1.y, r.r1.z), Vec3(r.r2.x, r.r2.y, r.r2.z)) == 0.0
  {
    var zC := Neg(forward);
    var xC := Normalize(m, Cross(up, zC));
    var yC := Cross(zC, xC);
    CrossOrthogonal(zC, xC);
    Mat4(Vec4(xC.x, xC.y, xC.z, -Dot(xC, eye)),
         Vec4(yC.x, yC.y, yC.z, -Dot(yC, eye)),
         Vec4(zC.x, zC.y, zC.z, -Dot(zC, eye)),
         Vec4(0.0, 0.0, 0.0, 1.0))
  }

  /** A point one gaze step ahead of the eye lands at height 0 and depth
      -|forward|^2 (-1 for a unit gaze) in camera space. Its x coordinate
      depends on normalize and is not fixed here. */
  lemma LookAtMatrixGaze(m: Math, forward: Vec3, up: Vec3, eye: Vec3)
    ensures var p := Apply(LookAtMatrix(m, forward, up, eye), Point(Add(eye, forward)));
      p.y == 0.0 && p.z == -Dot(forward, forward) && p.w == 1.0
  {
  }

  /** The view matrix carries the eye to the origin of camera space. */
  lemma LookAtMatrixCentersEye(m: Math, forward: Vec3, up: Vec3, eye: Vec3)
    ensures Apply(LookAtMatrix(m, forward, up, eye), Point(eye)) == Vec4(0.0, 0.0, 0.0, 1.0)
  {
  }

  /** Camera::Frustum: the off-centre perspective box with near plane
      [left, right] x [bottom, top] at distance near. */
  function Frustum(left: real, right: real, bottom: real, top: real, near: real, far: real): (r: Mat4)
    ensures r.r3 == Vec4(0.0, 0.0, -1.0, 0.0)
    ensures r.r0.y == 0.0 && r.r0.w == 0.0 && r.r1.x == 0.0 && r.r1.w == 0.0
    ensures r.r2.x == 0.0 && r.r2.y == 0.0
  {
    var iHorDist := Recip(right - left);
    var iVerDist := Recip(top - bottom);
    var iDepDist := Recip(near - far);
    var dNear := 2.0 * near;
    Mat4(Vec4(dNear * iHorDist, 0.0, (right + left) * iHorDist, 0.0),
         Vec4(0.0, dNear * iVerDist, (top + bottom) * iVerDist, 0.0),
         Vec4(0.0, 0.0, (far + near) * iDepDist, dNear * far * iDepDist),
         Vec4(0.0, 0.0, -1.0, 0.0))
  }

  /** Camera::Perspective: vertical field of view fovY, focal term
      tan(pi/2 - fovY/2), left at 0 where that angle is exactly +-pi/2. */
  function Perspective(m: Math, fovY: real, aspect: real, near: real, far: real): (r: Mat4)
    ensures r.r3 == Vec4(0.0, 0.0, -1.0, 0.0)
    ensures r.r0 == Vec4(Div(r.r1.y, aspect), 0.0, 0.0, 0.0)
    ensures r.r1.x == 0.0 && r.r1.z == 0.0 && r.r1.w == 0.0
    ensures r.r2.x == 0.0 && r.r2.y == 0.0
    // the guard against an infinite tangent fires exactly for fovY = 0 and fovY = 2 pi
    ensures fovY == 0.0 || fovY == 2.0 * Pi ==> r.r1.y == 0.0
    ensures fovY != 0.0 && fovY != 2.0 * Pi ==> r.r1.y == m.tan(HalfPi - fovY * 0.5)
  {
    var angle := HalfPi - fovY * 0.5;
    var f := if angle != HalfPi && angle != -HalfPi then m.tan(angle) else 0.0;
    var iDist := Recip(near - far);
    Mat4(Vec4(Div(f, aspect), 0.0, 0.0, 0.0),
         Vec4(0.0, f, 0.0, 0.0),
         Vec4(0.0, 0.0, (far + near) * iDist, 2.0 * far * near * iDist),
         Vec4(0.0, 0.0, -1.0, 0.0))
  }

  /** Camera::Orthographic: the box [left, right] x [bottom, top] x [-zFar, -zNear]
      mapped onto the unit cube. zNear and zFar are the camera's fields. */
  function Orthographic(left: real, right: real, bottom: real, top: real, zNear: real, zFar: real): (r: Mat4)
    ensures r.r3 == Vec4(0.0, 0.0, 0.0, 1.0)
    ensures r.r0.y == 0.0 && r.r0.z == 0.0 && r.r1.x == 0.0 && r.r1.z == 0.0
    ensures r.r2.x == 0.0 && r.r2.y == 0.0
  {
    var iHdist := Recip(right - left);
    var iVdist := Recip(top - bottom);
    var iZdist := Recip(zFar - zNear);
    Mat4(Vec4(2.0 * iHdist, 0.0, 0.0, -(right + left) * iHdist),
         Vec4(0.0, 2.0 * iVdist, 0.0, -(top + bottom) * iVdist),
         Vec4(0.0, 0.0, -2.0 * iZdist, -(zFar + zNear) * iZdist),
         Vec4(0.0, 0.0, 0.0, 1.0))
  }

  /** A perspective projection puts the eye-space depth -z into the w
      coordinate, and sends the near plane to clip depth -w and the far
      plane to clip depth +w (normalised depths -1 and +1). */
  lemma PerspectiveDepthRange(m: Math, fovY: real, aspect: real, near: real, far: real, x: real, y: real, z: real)
    requires near != far
    ensures Apply(Perspective(m, fovY, aspect, near, far), Vec4(x, y, z, 1.0)).w == -z
    ensures Apply(Perspective(m, fovY, aspect, near, far), Vec4(x, y, -near, 1.0)).z == -near
    ensures Apply(Perspective(m, fovY, aspect, near, far), Vec4(x, y, -far, 1.0)).z == far
  {
  }

  /** Frustum sends the near-plane corner (right, top) to the clip-space
      corner (1, 1, -1), scaled by w = near. */
  lemma FrustumNearTopRight(left: real, right: real, bottom: real, top: real, near: real, far: real)
    requires left != right && bottom != top && near != far
    ensures Apply(Frustum(left, right, bottom, top, near, far), Vec4(right, top, -near, 1.0))
         == Vec4(near, near, -near, near)
  {
  }

  /** Frustum sends the near-plane corner (left, bottom) to the clip-space
      corner (-1, -1, -1), scaled by w = near. */
  lemma FrustumNearBottomLeft(left: real, right: real, bottom: real, top: real, near: real, far: real)
    requires left != right && bottom != top && near != far
    ensures Apply(Frustum(left, right, bottom, top, near, far), Vec4(left, bottom, -near, 1.0))
         == Vec4(-near, -near, -near, near)
  {
  }

  /** Frustum sends every point of the far plane z = -far to clip depth
      +w, with w = far: together with the near-corner lemmas this fixes
      both entries of its depth row. */
  lemma FrustumFarPlane(left: real, right: real, bottom: real, top: real, near: real, far: real, x: real, y: real)
    requires near != far
    ensures Apply(Frustum(left, right, bottom, top, near, far), Vec4(x, y, -far, 1.0)).z == far
    ensures Apply(Frustum(left, right, bottom, top, near, far), Vec4(x, y, -far, 1.0)).w == far
  {
  }

  /** Orthographic maps the corners (left, bottom, -zNear) and
      (right, top, -zFar) of its box to (-1, -1, -1) and (1, 1, 1). */
  lemma OrthographicBox(left: real, right: real, bottom: real, top: real, zNear: real, zFar: real)
    requires left != right && bottom != top && zNear != zFar
    ensures Apply(Orthographic(left, right, bottom, top, zNear, zFar), Vec4(left, bottom, -zNear, 1.0))
         == Vec4(-1.0, -1.0, -1.0, 1.0)
    ensures Apply(Orthographic(left, right, bottom, top, zNear, zFar), Vec4(right, top, -zFar, 1.0))
         == Vec4(1.0, 1.0, 1.0, 1.0)
  {
  }
}
