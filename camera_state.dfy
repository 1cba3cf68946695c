/** What each operation of Camera.cpp does to the camera, stated on a value
    of the camera's whole state. The class in module Cameras performs the
    same operations in place and is proved to agree with these functions;
    the lemmas here are the properties that the agreement carries over. */
module CameraState {
  import opened Matrix
  import opened Projection

  /** The constants of Turn and Zoom. */
  const DegToRad: real := Pi / 180.0
  const MinFovY: real := DegToRad
  const MaxFovY: real := 179.0 * DegToRad
  const Tolerance: real := HalfPi - 0.000001
  const ZoomSpeed: real := 0.1

  /** One frame's input: mouse deltas and the four movement keys. */
  datatype CameraInputs = CameraInputs(
    deltaX: real, deltaY: real,
    moveForward: bool, moveBackward: bool, moveLeft: bool, moveRight: bool)

  const Idle: CameraInputs := CameraInputs(0.0, 0.0, false, false, false, false)

  /** CameraInputs::NoInputs: neither mouse delta nor any movement key. */
  function NoInputs(i: CameraInputs): (r: bool)
    ensures r <==> i == Idle
  {
    !(i.deltaX != 0.0 || i.deltaY != 0.0 || i.moveForward || i.moveBackward || i.moveLeft || i.moveRight)
  }

  /** Every field of a Camera. yaw and pitch are the function-static angles of Turn. */
  datatype CamState = CamState(
    eye: Vec3, center: Vec3, up: Vec3, zCamera: Vec3,
    zNear: real, zFar: real, fovY: real, aspect: real, orthoScale: real,
    perspective: bool,
    camSpeed: real, camRotationSpeed: real,
    viewChanged: bool, projChanged: bool,
    view: Mat4, projection: Mat4, viewProjection: Mat4,
    yaw: real, pitch: real)

  /** The view matrix of an eye, a target and an up vector. */
  function LookAtView(m: Math, eye: Vec3, center: Vec3, up: Vec3): Mat4
  {
    LookAtMatrix(m, Normalize(m, Sub(center, eye)), up, eye)
  }

  function ViewOf(m: Math, s: CamState): Mat4
  {
    LookAtView(m, s.eye, s.center, s.up)
  }

  /** The projection matrix of a mode and its lens parameters. */
  function LensProjection(m: Math, perspective: bool, fovY: real, aspect: real,
                          zNear: real, zFar: real, orthoScale: real): Mat4
  {
    if perspective then Perspective(m, fovY, aspect, zNear, zFar)
    else Orthographic(-orthoScale, orthoScale, -orthoScale, orthoScale, zNear, zFar)
  }

  function ProjectionOf(m: Math, s: CamState): Mat4
  {
    LensProjection(m, s.perspective, s.fovY, s.aspect, s.zNear, s.zFar, s.orthoScale)
  }

  /** The two states have the same projection mode and parameters. */
  predicate SameLens(a: CamState, b: CamState)
  {
    a.perspective == b.perspective && a.fovY == b.fovY && a.aspect == b.aspect &&
    a.zNear == b.zNear && a.zFar == b.zFar && a.orthoScale == b.orthoScale
  }

  /** The memoisation contract of the two latches: a cached matrix whose
      latch is clear is the one its parameters give, and the combined
      matrix is always the product of the cached ones. */
  predicate Coherent(m: Math, s: CamState)
  {
    (!s.viewChanged ==> s.view == ViewOf(m, s)) &&
    (!s.projChanged ==> s.projection == ProjectionOf(m, s)) &&
    s.viewProjection == MatMul(s.projection, s.view)
  }

  /** Clamp by a reference definition, for stating the clamps of Turn and Zoom. */
  function Clamp(x: real, lo: real, hi: real): real
  {
    if x < lo then lo else if hi < x then hi else x
  }

  /** Camera::SetView: recompute the gaze from eye and target, rebuild the view. */
  function SetView(m: Math, s: CamState): (r: CamState)
    ensures r == s.(zCamera := r.zCamera, view := r.view)
    ensures r.zCamera == Normalize(m, Sub(s.center, s.eye))
  {
    s.(zCamera := Normalize(m, Sub(s.center, s.eye)), view := ViewOf(m, s))
  }

  /** The view matrix SetView builds carries the eye to the origin. */
  lemma SetViewCentersEye(m: Math, s: CamState)
    ensures Apply(SetView(m, s).view, Point(s.eye)) == Vec4(0.0, 0.0, 0.0, 1.0)
  {
  }

  /** Camera::SetProjection: rebuild the projection of the current mode. */
  function SetProjection(m: Math, s: CamState): (r: CamState)
    ensures r == s.(projection := r.projection)
    ensures s.perspective ==> r.projection.r3 == Vec4(0.0, 0.0, -1.0, 0.0)
    ensures !s.perspective ==> r.projection.r3 == Vec4(0.0, 0.0, 0.0, 1.0)
  {
    s.(projection := ProjectionOf(m, s))
  }

  /** Camera::ComputeViewProjection: viewProjection := projection * view. */
  function ComputeViewProjection(s: CamState): (r: CamState)
    ensures r == s.(viewProjection := r.viewProjection)
    ensures r.viewProjection == MatMul(s.projection, s.view)
  {

    s.(viewProjection := MatMul(s.projection, s.view))
  }

  /** Camera::Move: translate eye and target together. */
  function Move(s: CamState, velocity: Vec3): (r: CamState)
    ensures r == s.(eye := r.eye, center := r.center)
    ensures r.eye == Add(s.eye, velocity)
    ensures Sub(r.center, r.eye) == Sub(s.center, s.eye)
  {
    SubAddCancel(s.center, s.eye, velocity);
    s.(eye := Add(s.eye, velocity), center := Add(s.center, velocity))
  }

  /** The unit-sphere direction of a yaw and a pitch, before normalisation. */
  function Direction(m: Math, yaw: real, pitch: real): Vec3
  {
    Vec3(m.cos(yaw) * m.cos(pitch), m.sin(pitch), m.sin(yaw) * m.cos(pitch))
  }

  /** Camera::Turn: accumulate yaw (about Y, unbounded) or pitch (about X,
      clamped short of the poles), recompute the gaze, and either swing the
      target around the eye (perspective) or orbit the eye around the
      target at distance orthoScale (orthographic). The latches are untouched. */
  function Turn(m: Math, s: CamState, angle: real, axis: Axis): (r: CamState)
    ensures r == s.(yaw := r.yaw, pitch := r.pitch, zCamera := r.zCamera, eye := r.eye, center := r.center)
    ensures axis == X ==> r.pitch == Clamp(s.pitch + angle, -Tolerance, Tolerance) && r.yaw == s.yaw
    ensures axis == X ==> -Tolerance <= r.pitch <= Tolerance
    ensures axis == Y ==> r.yaw == s.yaw + angle && r.pitch == s.pitch
    ensures axis == Z ==> r.yaw == s.yaw && r.pitch == s.pitch
  {
    Swing(m, s, TurnedYaw(s.yaw, angle, axis), TurnedPitch(s.pitch, angle, axis))
  }

  /** The pitch after a turn: about X it moves by the angle and is clamped
      to [-Tolerance, Tolerance]; about any other axis it is unchanged. */
  function TurnedPitch(pitch: real, angle: real, axis: Axis): real
  {
    if axis == X then
      var p := pitch + angle;
      var p' := if p > Tolerance then Tolerance else p;
      if p' < -Tolerance then -Tolerance else p'
    else pitch
  }

  /** The yaw after a turn: about Y it moves by the angle, without bound. */
  function TurnedYaw(yaw: real, angle: real, axis: Axis): real
  {
    if axis == Y then yaw + angle else yaw
  }

  /** The second half of Camera::Turn: store the new angles, recompute the
      gaze from them, and move the target (perspective) or the eye
      (orthographic) to match. */
  function Swing(m: Math, s: CamState, yaw: real, pitch: real): CamState
  {
    var zCamera := Normalize(m, Direction(m, yaw, pitch));
    if s.perspective then
      s.(yaw := yaw, pitch := pitch, zCamera := zCamera, center := Add(s.eye, zCamera))
    else
      s.(yaw := yaw, pitch := pitch, zCamera := zCamera, eye := Sub(s.center, Scale(zCamera, s.orthoScale)))
  }

  /** The gaze after a turn is the normalised direction of the new angles;
      a perspective camera swings its target around the fixed eye, an
      orthographic one moves its eye around the fixed target, keeping the
      target orthoScale gaze lengths ahead. */
  lemma TurnSwingsGaze(m: Math, s: CamState, angle: real, axis: Axis)
    ensures var r := Turn(m, s, angle, axis);
      r.zCamera == Normalize(m, Direction(m, r.yaw, r.pitch)) &&
      (s.perspective ==> r.eye == s.eye && Sub(r.center, r.eye) == r.zCamera) &&
      (!s.perspective ==> r.center == s.center && Sub(r.center, r.eye) == Scale(r.zCamera, s.orthoScale))
  {
  }

  /** Camera::Zoom: narrow or widen the field of view by yoffset degrees,
      kept within [1, 179] degrees, in perspective mode; change orthoScale
      by 0.1 per unit, without a bound, in orthographic mode. */
  function Zoom(s: CamState, yoffset: real): (r: CamState)
    ensures r == s.(fovY := r.fovY, orthoScale := r.orthoScale, projChanged := true)
    ensures s.perspective ==> r.fovY == Clamp(s.fovY - yoffset * DegToRad, MinFovY, MaxFovY)
    ensures s.perspective ==> MinFovY <= r.fovY <= MaxFovY && r.orthoScale == s.orthoScale
    ensures !s.perspective ==> r.orthoScale == s.orthoScale - ZoomSpeed * yoffset && r.fovY == s.fovY
  {
    if s.perspective then
      var f := s.fovY - yoffset * DegToRad;
      var f' := if f < DegToRad then DegToRad else f;
      var f'' := if f' > 179.0 * DegToRad then 179.0 * DegToRad else f';
      s.(fovY := f'', projChanged := true)
    else
      s.(orthoScale := s.orthoScale - ZoomSpeed * yoffset, projChanged := true)
  }

  /** Camera::LookAt: aim at a new target from the same eye. */
  function LookAt(m: Math, s: CamState, target: Vec3): (r: CamState)
    ensures r == s.(center := target, zCamera := r.zCamera, viewChanged := true)
    ensures r.eye == s.eye && r.center == target && r.viewChanged
    ensures r.zCamera == Normalize(m, Sub(target, r.eye))
  {
    s.(center := target, zCamera := Normalize(m, Sub(target, s.eye)), viewChanged := true)
  }

  /** The mouse half of Camera::Update's input handling: a turn about Y
      for deltaX, then one about X for deltaY. */
  function TurnInputs(m: Math, s: CamState, deltaTime: real, inputs: CameraInputs): (r: CamState)
    ensures r == s.(yaw := r.yaw, pitch := r.pitch, zCamera := r.zCamera, eye := r.eye, center := r.center)
    ensures r.yaw == s.yaw +
      (if inputs.deltaX != 0.0 then MouseAngle(inputs.deltaX, deltaTime, s.camRotationSpeed) else 0.0)
    ensures r.pitch ==
      if inputs.deltaY != 0.0 then
        Clamp(s.pitch + MouseAngle(-inputs.deltaY, deltaTime, s.camRotationSpeed), -Tolerance, Tolerance)
      else s.pitch
    ensures inputs.deltaY != 0.0 || -Tolerance <= s.pitch <= Tolerance ==> -Tolerance <= r.pitch <= Tolerance
  {
    var s1 := MouseTurn(m, s, inputs.deltaX, MouseAngle(inputs.deltaX, deltaTime, s.camRotationSpeed), Y);
    MouseTurn(m, s1, inputs.deltaY, MouseAngle(-inputs.deltaY, deltaTime, s.camRotationSpeed), X)
  }

  /** The turn angle of a mouse delta: delta * deltaTime * camRotationSpeed. */
  function MouseAngle(delta: real, deltaTime: real, camRotationSpeed: real): real
  {
    delta * deltaTime * camRotationSpeed
  }

  /** One mouse delta: the turn by angle about the axis, or nothing when
      the delta is zero. */
  function MouseTurn(m: Math, s: CamState, delta: real, angle: real, axis: Axis): (r: CamState)
    ensures r == s.(yaw := r.yaw, pitch := r.pitch, zCamera := r.zCamera, eye := r.eye, center := r.center)
    ensures delta == 0.0 ==> r == s
    ensures delta != 0.0 ==> r == Turn(m, s, angle, axis)
  {
    if delta != 0.0 then Turn(m, s, angle, axis) else s
  }

  /** The keyboard half: forward, backward, left and right, in that order. */
  function MoveInputs(m: Math, s: CamState, deltaTime: real, inputs: CameraInputs): (r: CamState)
    ensures r == s.(eye := r.eye, center := r.center)
    ensures Sub(r.center, r.eye) == Sub(s.center, s.eye)
  {
    var s1 := if inputs.moveForward then Move(s, Scale(Scale(s.zCamera, deltaTime), s.camSpeed)) else s;
    var s2 := if inputs.moveBackward then Move(s1, Scale(Scale(Neg(s1.zCamera), deltaTime), s1.camSpeed)) else s1;
    var s3 :=
      if inputs.moveLeft then
        Move(s2, Scale(Scale(Normalize(m, Cross(s2.up, s2.zCamera)), deltaTime), s2.camSpeed))
      else s2;
    if inputs.moveRight then
      Move(s3, Scale(Scale(Neg(Normalize(m, Cross(s3.up, s3.zCamera))), deltaTime), s3.camSpeed))
    else s3
  }

  /** The velocity a movement key contributes: v while it is down, none otherwise. */
  function KeyVelocity(pressed: bool, v: Vec3): Vec3
  {
    if pressed then v else Vec3(0.0, 0.0, 0.0)
  }

  /** The eye moves by the sum of the velocities of the keys that are down,
      all taken from the gaze, up vector and speed at the start of the
      frame (moving changes none of them): forward along the gaze,
      backward against it, moveLeft along normalize(up x gaze) and
      moveRight against it, each scaled by deltaTime * camSpeed. */
  lemma MoveInputsDisplacement(m: Math, s: CamState, deltaTime: real, inputs: CameraInputs)
    ensures var ahead := Scale(Scale(s.zCamera, deltaTime), s.camSpeed);
      var side := Scale(Scale(Normalize(m, Cross(s.up, s.zCamera)), deltaTime), s.camSpeed);
      MoveInputs(m, s, deltaTime, inputs).eye ==
        Add(Add(Add(Add(s.eye,
          KeyVelocity(inputs.moveForward, ahead)),
          KeyVelocity(inputs.moveBackward, Neg(ahead))),
          KeyVelocity(inputs.moveLeft, side)),
          KeyVelocity(inputs.moveRight, Neg(side)))
  {
    var ahead := Scale(Scale(s.zCamera, deltaTime), s.camSpeed);
    var side := Scale(Scale(Normalize(m, Cross(s.up, s.zCamera)), deltaTime), s.camSpeed);
    ScaleNeg(s.zCamera, deltaTime, s.camSpeed);
    ScaleNeg(Normalize(m, Cross(s.up, s.zCamera)), deltaTime, s.camSpeed);
    var s1 := if inputs.moveForward then Move(s, ahead) else s;
    assert s1.eye == Add(s.eye, KeyVelocity(inputs.moveForward, ahead));
    var s2 := if inputs.moveBackward then Move(s1, Neg(ahead)) else s1;
    assert s2.eye == Add(s1.eye, KeyVelocity(inputs.moveBackward, Neg(ahead)));
    var s3 := if inputs.moveLeft then Move(s2, side) else s2;
    assert s3.eye == Add(s2.eye, KeyVelocity(inputs.moveLeft, side));
  }

  lemma ScaleNeg(v: Vec3, a: real, b: real)
    ensures Scale(Scale(Neg(v), a), b) == Neg(Scale(Scale(v, a), b))
  {
  }

  /** With only the forward key down, the eye advances deltaTime * camSpeed gazes. */
  lemma MoveForwardOnly(m: Math, s: CamState, deltaTime: real)
    ensures MoveInputs(m, s, deltaTime, Idle.(moveForward := true)).eye
         == Add(s.eye, Scale(Scale(s.zCamera, deltaTime), s.camSpeed))
  {
  }

  /** Opposite keys held together cancel: the camera does not move. */
  lemma OppositeKeysCancel(m: Math, s: CamState, deltaTime: real, inputs: CameraInputs)
    requires inputs.moveForward == inputs.moveBackward && inputs.moveLeft == inputs.moveRight
    ensures MoveInputs(m, s, deltaTime, inputs) == s
  {
    MoveInputsDisplacement(m, s, deltaTime, inputs);
    var r := MoveInputs(m, s, deltaTime, inputs);
    assert r.eye == s.eye;
    assert r.center == Add(r.eye, Sub(r.center, r.eye));
  }

  /** The first half of Camera::Update: rebuild the matrices whose latch is
      set, the combined one if either is, then clear both latches. */
  function Rebuilt(m: Math, s: CamState): (r: CamState)
    ensures r.view == if s.viewChanged then ViewOf(m, s) else s.view
    ensures r.projection == if s.projChanged then ProjectionOf(m, s) else s.projection
    ensures r.viewProjection ==
      if s.viewChanged || s.projChanged then MatMul(r.projection, r.view) else s.viewProjection
    ensures !r.viewChanged && !r.projChanged
    ensures r.eye == s.eye && r.center == s.center && r.up == s.up && SameLens(r, s)
    ensures r.zCamera == if s.viewChanged then Normalize(m, Sub(s.center, s.eye)) else s.zCamera
    ensures r == s.(zCamera := r.zCamera, view := r.view, projection := r.projection,
                    viewProjection := r.viewProjection, viewChanged := false, projChanged := false)
  {
    var s1 := if s.viewChanged then SetView(m, s) else s;
    var s2 := if s.projChanged then SetProjection(m, s1) else s1;
    var s3 := if s.viewChanged || s.projChanged then ComputeViewProjection(s2) else s2;
    s3.(viewChanged := false, projChanged := false)
  }

  /** Camera::Update: rebuild the matrices whose latch is set, clear both
      latches, then apply the frame's input and set viewChanged if there was any. */
  function Update(m: Math, s: CamState, deltaTime: real, inputs: CameraInputs): (r: CamState)
    ensures r.view == if s.viewChanged then ViewOf(m, s) else s.view
    ensures r.projection == if s.projChanged then ProjectionOf(m, s) else s.projection
    ensures r.viewProjection ==
      if s.viewChanged || s.projChanged then MatMul(r.projection, r.view) else s.viewProjection
    ensures !r.projChanged
    ensures r.viewChanged <==> !NoInputs(inputs)
    ensures NoInputs(inputs) ==> r.eye == s.eye && r.center == s.center
    ensures SameLens(r, s) && r.up == s.up
    ensures NoInputs(inputs) ==> r == Rebuilt(m, s)
    ensures !NoInputs(inputs) ==>
      r == MoveInputs(m, TurnInputs(m, Rebuilt(m, s).(viewChanged := true), deltaTime, inputs), deltaTime, inputs)
  {
    var s1 := Rebuilt(m, s);
    if NoInputs(inputs) then s1
    else MoveInputs(m, TurnInputs(m, s1.(viewChanged := true), deltaTime, inputs), deltaTime, inputs)
  }

  /** SetView, SetProjection and ComputeViewProjection in the constructor's
      order leave any state coherent, changing only the gaze and the three
      matrices. */
  lemma RebuildIsCoherent(m: Math, s: CamState)
    ensures var r := ComputeViewProjection(SetProjection(m, SetView(m, s)));
      Coherent(m, r) && r.view == ViewOf(m, r) && r.projection == ProjectionOf(m, r) &&
      r == s.(zCamera := r.zCamera, view := r.view, projection := r.projection, viewProjection := r.viewProjection)
  {
  }

  // ---------------------------------------------------------------------
  // The latch contract across operations

  /** Update keeps the memoisation contract, and leaves the combined matrix
      equal to projection * view for the rest of the frame; after a frame
      without input, all three cached matrices are those of the current state. */
  lemma UpdateKeepsCoherent(m: Math, s: CamState, deltaTime: real, inputs: CameraInputs)
    requires Coherent(m, s)
    ensures Coherent(m, Update(m, s, deltaTime, inputs))
    ensures NoInputs(inputs) ==>
      var r := Update(m, s, deltaTime, inputs);
      r.view == ViewOf(m, r) && r.projection == ProjectionOf(m, r)
  {
  }

  /** In a coherent state the cached combined matrix projects what the
      view matrix moved: for every point p,
      viewProjection p == projection (view p). */
  lemma CoherentCombinedMatrix(m: Math, s: CamState)
    requires Coherent(m, s)
    ensures forall p :: Apply(s.viewProjection, p) == Apply(s.projection, Apply(s.view, p))
  {
    forall p ensures Apply(s.viewProjection, p) == Apply(s.projection, Apply(s.view, p)) {
      ApplyMatMul(s.projection, s.view, p);
    }
  }

  /** Zoom and LookAt set the latch of the matrix they make stale. */
  lemma ZoomKeepsCoherent(m: Math, s: CamState, yoffset: real)
    requires Coherent(m, s)
    ensures Coherent(m, Zoom(s, yoffset))
  {
  }

  lemma LookAtKeepsCoherent(m: Math, s: CamState, target: Vec3)
    requires Coherent(m, s)
    ensures Coherent(m, LookAt(m, s, target))
  {
  }

  /** Move and Turn set no latch: they keep the contract only when the view
      latch is already set, as Update sets it before calling them. */
  lemma MoveKeepsCoherent(m: Math, s: CamState, velocity: Vec3)
    requires Coherent(m, s) && s.viewChanged
    ensures Coherent(m, Move(s, velocity))
  {
  }

  lemma TurnKeepsCoherent(m: Math, s: CamState, angle: real, axis: Axis)
    requires Coherent(m, s) && s.viewChanged
    ensures Coherent(m, Turn(m, s, angle, axis))
  {
  }

  /** A frame without input clears both latches and moves nothing, so a
      second such frame changes nothing at all. */
  lemma UpdateIdempotent(m: Math, s: CamState, dt1: real, dt2: real, in1: CameraInputs, in2: CameraInputs)
    requires NoInputs(in1) && NoInputs(in2)
    ensures Update(m, Update(m, s, dt1, in1), dt2, in2) == Update(m, s, dt1, in1)
  {
  }

  /** In perspective mode the clamp of Zoom keeps the field of view away
      from the two angles where Perspective's tangent guard fires, so the
      rebuilt projection always carries the genuine focal term. */
  lemma ZoomAvoidsDegenerateProjection(m: Math, s: CamState, yoffset: real)
    requires s.perspective
    ensures var r := Zoom(s, yoffset);
      ProjectionOf(m, r).r1.y == m.tan(HalfPi - r.fovY * 0.5)
  {
  }

  // ---------------------------------------------------------------------
  // Repeated input

  datatype TurnInput = TurnInput(angle: real, axis: Axis)

  /** A sequence of turns, applied first to last. */
  function Turns(m: Math, s: CamState, ts: seq<TurnInput>): CamState
    decreases |ts|
  {
    if ts == [] then s else Turns(m, Turn(m, s, ts[0].angle, ts[0].axis), ts[1..])
  }

  /** The sum of the angles of the turns about Y. */
  function YawSum(ts: seq<TurnInput>): real
    decreases |ts|
  {
    if ts == [] then 0.0 else (if ts[0].axis == Y then ts[0].angle else 0.0) + YawSum(ts[1..])
  }

  /** However large the turns, pitch never leaves [-Tolerance, Tolerance]
      once inside it, yaw is the plain sum of the Y angles, and no latch moves. */
  lemma {:induction false} TurnsStayBounded(m: Math, s: CamState, ts: seq<TurnInput>)
    requires -Tolerance <= s.pitch <= Tolerance
    ensures -Tolerance <= Turns(m, s, ts).pitch <= Tolerance
    ensures Turns(m, s, ts).yaw == s.yaw + YawSum(ts)
    ensures Turns(m, s, ts).viewChanged == s.viewChanged && Turns(m, s, ts).projChanged == s.projChanged
    decreases |ts|
  {
    if ts != [] {
      TurnsStayBounded(m, Turn(m, s, ts[0].angle, ts[0].axis), ts[1..]);
    }
  }

  /** A sequence of moves, applied first to last. */
  function Moves(s: CamState, vs: seq<Vec3>): CamState
    decreases |vs|
  {
    if vs == [] then s else Moves(Move(s, vs[0]), vs[1..])
  }

  function Total(vs: seq<Vec3>): Vec3
    decreases |vs|
  {
    if vs == [] then Vec3(0.0, 0.0, 0.0) else Add(vs[0], Total(vs[1..]))
  }

  /** Moves translate the eye by their total and never change the gaze. */
  lemma {:induction false} MovesKeepGaze(s: CamState, vs: seq<Vec3>)
    ensures Moves(s, vs).eye == Add(s.eye, Total(vs))
    ensures Sub(Moves(s, vs).center, Moves(s, vs).eye) == Sub(s.center, s.eye)
    ensures Moves(s, vs) == s.(eye := Moves(s, vs).eye, center := Moves(s, vs).center)
    decreases |vs|
  {
    if vs != [] {
      MovesKeepGaze(Move(s, vs[0]), vs[1..]);
    }
  }

  /** A sequence of zooms, applied first to last. */
  function Zooms(s: CamState, ys: seq<real>): CamState
    decreases |ys|
  {
    if ys == [] then s else Zooms(Zoom(s, ys[0]), ys[1..])
  }

  function Sum(ys: seq<real>): real
    decreases |ys|
  {
    if ys == [] then 0.0 else ys[0] + Sum(ys[1..])
  }

  /** Repeated zooms keep the field of view within [1, 179] degrees in
      perspective mode; in orthographic mode they move orthoScale by the
      sum of the steps and leave the field of view alone. */
  lemma {:induction false} ZoomsStayBounded(s: CamState, ys: seq<real>)
    ensures s.perspective && (ys != [] || MinFovY <= s.fovY <= MaxFovY) ==>
      MinFovY <= Zooms(s, ys).fovY <= MaxFovY && Zooms(s, ys).orthoScale == s.orthoScale
    ensures !s.perspective ==>
      Zooms(s, ys).orthoScale == s.orthoScale - ZoomSpeed * Sum(ys) && Zooms(s, ys).fovY == s.fovY
    ensures Zooms(s, ys).perspective == s.perspective && Zooms(s, ys).viewChanged == s.viewChanged
    decreases |ys|
  {
    if ys != [] {
      ZoomsStayBounded(Zoom(s, ys[0]), ys[1..]);
    }
  }
}
