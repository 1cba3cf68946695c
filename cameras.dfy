/** The Camera object of Camera.cpp. Its methods update its fields in place,
    in the source's order. Each method is proved to leave the camera in the
    state a CameraState function gives: the function of the same name, or,
    for the parts of Update, Rebuilt (RebuildMatrices), TurnInputs
    (TurnByInputs), MouseTurn (TurnByMouse) and MoveInputs (MoveByInputs);
    LookAtPoint gives LookAt. The constructor states its fields directly.
    So the lemmas proved in CameraState hold of the object. */
module Cameras {
  import opened Matrix
  import opened Projection
  import CameraState

  class Camera {
    /** cos, sin, tan and Normalize, which the camera calls but does not define. */
    const math: Math
    const width: nat
    const height: nat

    var eye: Vec3
    var center: Vec3
    var up: Vec3
    var zCamera: Vec3
    var zNear: real
    var zFar: real
    var fovY: real
    var aspect: real
    var orthoScale: real
    var perspective: bool
    var camSpeed: real
    var camRotationSpeed: real
    var viewChanged: bool
    var projChanged: bool
    var view: Mat4
    var projection: Mat4
    var viewProjection: Mat4
    /** The static locals of Camera::Turn, initialised to -pi/2 and 0. */
    var yaw: real
    var pitch: real

    /** Every mutable field, as a value. */
    function State(): CameraState.CamState
      reads this
    {
      CameraState.CamState(
        eye, center, up, zCamera, zNear, zFar, fovY, aspect, orthoScale, perspective,
        camSpeed, camRotationSpeed, viewChanged, projChanged,
        view, projection, viewProjection, yaw, pitch)
    }

    /** Camera::Camera(width, height). The mode, orthoScale, the two speeds
        and the initial latches come from the class header, which is not
        part of this model, and are parameters here. */
    constructor (math: Math, width: nat, height: nat, perspective: bool, orthoScale: real,
                 camSpeed: real, camRotationSpeed: real, viewChanged: bool, projChanged: bool)
      ensures this.math == math && this.width == width && this.height == height
      ensures eye == Vec3(0.0, 1.0, 3.0) && center == Vec3(0.0, 1.0, 0.0) && up == Vec3(0.0, 1.0, 0.0)
      ensures zNear == 0.1 && zFar == 100.0 && fovY == HalfPi && aspect == Div(width as real, height as real)
      ensures this.perspective == perspective && this.orthoScale == orthoScale
      ensures this.camSpeed == camSpeed && this.camRotationSpeed == camRotationSpeed
      ensures this.viewChanged == viewChanged && this.projChanged == projChanged
      ensures yaw == -HalfPi && pitch == 0.0
      ensures zCamera == Normalize(math, Sub(center, eye))
      ensures CameraState.Coherent(math, State())
      ensures view == CameraState.ViewOf(math, State()) && projection == CameraState.ProjectionOf(math, State())
    {
      this.math := math;
      this.width := width;
      this.height := height;
      zNear := 0.1;
      zFar := 100.0;
      fovY := HalfPi;
      eye := Vec3(0.0, 1.0, 3.0);
      center := Vec3(0.0, 1.0, 0.0);
      up := Vec3(0.0, 1.0, 0.0);
      aspect := Div(width as real, height as real);
      this.perspective := perspective;
      this.orthoScale := orthoScale;
      this.camSpeed := camSpeed;
      this.camRotationSpeed := camRotationSpeed;
      this.viewChanged := viewChanged;
      this.projChanged := projChanged;
      yaw := -HalfPi;
      pitch := 0.0;
      new;
      SetView();
      SetProjection();
      ComputeViewProjection();
    }

    /** Camera::Update. */
    method Update(deltaTime: real, inputs: CameraState.CameraInputs)
      modifies this
      ensures State() == CameraState.Update(math, old(State()), deltaTime, inputs)
    {
      RebuildMatrices();
      if CameraState.NoInputs(inputs) {
        return;
      }
      viewChanged := true;

      TurnByInputs(deltaTime, inputs);
      MoveByInputs(deltaTime, inputs);
    }

    /** Lines 24-31 of Camera::Update: rebuild each matrix whose latch is
        set, then clear both latches. */
    method RebuildMatrices()
      modifies this`zCamera, this`view, this`projection, this`viewProjection, this`viewChanged, this`projChanged
      ensures State() == CameraState.Rebuilt(math, old(State()))
    {
      ghost var s := State();
      if viewChanged {
        SetView();
      }
      ghost var s1 := State();
      assert s1 == if s.viewChanged then CameraState.SetView(math, s) else s;
      if projChanged {
        SetProjection();
      }
      ghost var s2 := State();
      assert s2 == if s.projChanged then CameraState.SetProjection(math, s1) else s1;
      if viewChanged || projChanged {
        ComputeViewProjection();
      }
      assert State() == if s.viewChanged || s.projChanged then CameraState.ComputeViewProjection(s2) else s2;
      viewChanged := false;
      projChanged := false;
    }

    /** Lines 37-40 of Camera::Update: the mouse deltas become turns. */
    method TurnByInputs(deltaTime: real, inputs: CameraState.CameraInputs)
      modifies this`yaw, this`pitch, this`zCamera, this`eye, this`center
      ensures State() == CameraState.TurnInputs(math, old(State()), deltaTime, inputs)
    {
      TurnByMouse(inputs.deltaX, CameraState.MouseAngle(inputs.deltaX, deltaTime, camRotationSpeed), Y);
      TurnByMouse(inputs.deltaY, CameraState.MouseAngle(-inputs.deltaY, deltaTime, camRotationSpeed), X);
    }

    /** One of the two mouse branches of Camera::Update: a nonzero delta
        turns the camera by angle. */
    method TurnByMouse(delta: real, angle: real, axis: Axis)
      modifies this`yaw, this`pitch, this`zCamera, this`eye, this`center
      ensures State() == CameraState.MouseTurn(math, old(State()), delta, angle, axis)
    {
      if delta != 0.0 {
        Turn(angle, axis);
      }
    }

    /** Lines 42-56 of Camera::Update: the movement keys become moves. */
    method MoveByInputs(deltaTime: real, inputs: CameraState.CameraInputs)
      modifies this`eye, this`center
      ensures State() == CameraState.MoveInputs(math, old(State()), deltaTime, inputs)
    {
      if inputs.moveForward {
        Move(Scale(Scale(zCamera, deltaTime), camSpeed));
      }
      if inputs.moveBackward {
        Move(Scale(Scale(Neg(zCamera), deltaTime), camSpeed));
      }
      if inputs.moveLeft {
        var right := Normalize(math, Cross(up, zCamera));
        Move(Scale(Scale(right, deltaTime), camSpeed));
      }
      if inputs.moveRight {
        var left := Neg(Normalize(math, Cross(up, zCamera)));
        Move(Scale(Scale(left, deltaTime), camSpeed));
      }
    }

    /** Camera::Move. */
    method Move(velocity: Vec3)
      modifies this`eye, this`center
      ensures State() == CameraState.Move(old(State()), velocity)
      ensures Sub(center, eye) == old(Sub(center, eye))
    {
      eye := Add(eye, velocity);
      center := Add(center, velocity);
    }

    /** Camera::Turn. */
    method Turn(angle: real, axis: Axis)
      modifies this`yaw, this`pitch, this`zCamera, this`eye, this`center
      ensures State() == CameraState.Turn(math, old(State()), angle, axis)
    {
      var tolerance := HalfPi - 0.000001;
      if axis == X {
        pitch := pitch + angle;
        if pitch > tolerance {
          pitch := tolerance;
        }
        if pitch < -tolerance {
          pitch := -tolerance;
        }
      }
      if axis == Y {
        yaw := yaw + angle;
      }
      assert pitch == CameraState.TurnedPitch(old(pitch), angle, axis);
      assert yaw == CameraState.TurnedYaw(old(yaw), angle, axis);
      var direction := CameraState.Direction(math, yaw, pitch);
      zCamera := Normalize(math, direction);
      if perspective {
        center := Add(eye, zCamera);
      } else {
        eye := Sub(center, Scale(zCamera, orthoScale));
      }
    }

    /** Camera::Zoom. */
    method Zoom(yoffset: real)
      modifies this`fovY, this`orthoScale, this`projChanged
      ensures State() == CameraState.Zoom(old(State()), yoffset)
      ensures perspective ==> CameraState.MinFovY <= fovY <= CameraState.MaxFovY
    {
      if perspective {
        var degToRad := Pi / 180.0;
        fovY := fovY - yoffset * degToRad;
        if fovY < degToRad {
          fovY := degToRad;
        }
        if fovY > 179.0 * degToRad {
          fovY := 179.0 * degToRad;
        }
      } else {
        var zoomSpeed := 0.1;
        orthoScale := orthoScale - zoomSpeed * yoffset;
      }
      projChanged := true;
    }

    /** Camera::SetView. */
    method SetView()
      modifies this`zCamera, this`view
      ensures zCamera == Normalize(math, Sub(center, eye))
      ensures view == CameraState.LookAtView(math, eye, center, up)
      ensures State() == CameraState.SetView(math, old(State()))
    {
      zCamera := Normalize(math, Sub(center, eye));
      var zC := Neg(zCamera);
      var xC := Normalize(math, Cross(up, zC));
      var yC := Cross(zC, xC);
      view := Mat4(Vec4(xC.x, xC.y, xC.z, -Dot(xC, eye)),
                   Vec4(yC.x, yC.y, yC.z, -Dot(yC, eye)),
                   Vec4(zC.x, zC.y, zC.z, -Dot(zC, eye)),
                   Vec4(0.0, 0.0, 0.0, 1.0));
    }

    /** Camera::SetProjection. */
    method SetProjection()
      modifies this`projection
      ensures projection == CameraState.LensProjection(math, perspective, fovY, aspect, zNear, zFar, orthoScale)
      ensures State() == CameraState.SetProjection(math, old(State()))
    {
      if perspective {
        projection := Perspective(math, fovY, aspect, zNear, zFar);
      } else {
        projection := Orthographic(-orthoScale, orthoScale, -orthoScale, orthoScale, zNear, zFar);
      }
    }

    /** Camera::ComputeViewProjection. */
    method ComputeViewProjection()
      modifies this`viewProjection
      ensures viewProjection == MatMul(projection, view)
      ensures State() == CameraState.ComputeViewProjection(old(State()))
    {
      viewProjection := MatMul(projection, view);
    }

    /** Camera::LookAt(const Vectorf3&). */
    method LookAt(target: Vec3)
      modifies this`center, this`zCamera, this`viewChanged
      ensures State() == CameraState.LookAt(math, old(State()), target)
    {
      center := target;
      zCamera := Normalize(math, Sub(center, eye));
      viewChanged := true;
    }

    /** Camera::LookAt(float, float, float). */
    method LookAtPoint(x: real, y: real, z: real)
      modifies this`center, this`zCamera, this`viewChanged
      ensures State() == CameraState.LookAt(math, old(State()), Vec3(x, y, z))
    {
      LookAt(Vec3(x, y, z));
    }
  }
}
