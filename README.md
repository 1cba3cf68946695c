# Camera model

A Dafny model of the renderer's `Camera` (source/src/LowRenderer/Camera.cpp):
a first-person / orbiting camera that keeps an eye point, a target point, an
up vector and a unit gaze `zCamera`, caches a view matrix, a projection
matrix and their product, and rebuilds each cached matrix lazily when its
latch (`viewChanged`, `projChanged`) is set. Once per frame `Update` rebuilds
what is stale and then turns the camera by the mouse deltas and moves it by
the movement keys of a `CameraInputs` record.

The project has four modules:

- `Matrix` (matrix.dfy): 3- and 4-vectors, 4x4 matrices stored by rows, and the
  operations Camera.cpp uses (sum, difference, scaling, dot and cross
  products, matrix times vector, matrix product). `cos`, `sin`, `tan` and
  `Vectorf3::Normalize` are function values in a `Math` record: they stay
  uninterpreted and every result holds for any choice of them.
- `Projection` (projection.dfy): the pure matrix builders, that is the look-at
  matrix of `SetView`, `Frustum`, `Perspective` and `Orthographic`, with lemmas
  on where they send chosen points.
- `CameraState` (camera_state.dfy): each camera operation as a function on a
  value `CamState` holding every field of the camera. It also proves the
  properties of the memoisation latches, the clamps and repeated input.
- `Cameras` (cameras.dfy): the class `Camera` with the source's fields. Its
  methods update them in place in the source's order. Each method except
  the constructor is proved to leave `State()` equal to a `CameraState`
  function applied to the old state: the function of the same name, or,
  for the parts of `Update`, `Rebuilt` (`RebuildMatrices`), `TurnInputs`
  (`TurnByInputs`), `MouseTurn` (`TurnByMouse`) and `MoveInputs`
  (`MoveByInputs`); `LookAtPoint` gives `LookAt`. The constructor states
  its fields directly. So every lemma in `CameraState` holds of the object.

## Model

| member | source | states |
|---|---|---|
| CameraState.NoInputs | source/src/LowRenderer/Camera.cpp:262-267 | there is no input exactly when both mouse deltas are zero and no movement key is down (the all-zero record) |
| CameraState.SetView | source/src/LowRenderer/Camera.cpp:119-135 | the gaze becomes the normalised eye-to-target vector; only the gaze and the view matrix change |
| Projection.LookAtMatrix | source/src/LowRenderer/Camera.cpp:123-132 | for any normalize, the view matrix's third rotation row is -gaze, its second row is orthogonal to the other two, and its last row is (0, 0, 0, 1) |
| Projection.LookAtMatrixGaze | source/src/LowRenderer/Camera.cpp:123-132 | the point one gaze step ahead of the eye lands at height 0 and depth -\|gaze\|^2 in camera space (its x coordinate is not fixed) |
| Projection.LookAtMatrixCentersEye | source/src/LowRenderer/Camera.cpp:127-132 | the view matrix sends the eye to the origin of camera space |
| CameraState.SetViewCentersEye | source/src/LowRenderer/Camera.cpp:119-135 | after SetView the view matrix sends the camera's eye to the origin |
| CameraState.SetProjection | source/src/LowRenderer/Camera.cpp:138-144 | only the projection changes; its last row is that of a perspective matrix in perspective mode and that of an affine one in orthographic mode |
| CameraState.ComputeViewProjection | source/src/LowRenderer/Camera.cpp:146-148 | only the combined matrix changes, and it becomes projection * view |
| Matrix.ApplyMatMul | source/src/LowRenderer/Camera.cpp:146-148 | the combined matrix applied to a point equals the view matrix applied first, then the projection |
| Projection.Frustum | source/src/LowRenderer/Camera.cpp:218-229 | the fixed entries of the frustum matrix: the zeros and the last row (0, 0, -1, 0) |
| Projection.FrustumNearTopRight | source/src/LowRenderer/Camera.cpp:218-229 | the near-plane corner (right, top) goes to the clip corner (1, 1, -1) with w = near |
| Projection.FrustumNearBottomLeft | source/src/LowRenderer/Camera.cpp:218-229 | the near-plane corner (left, bottom) goes to the clip corner (-1, -1, -1) with w = near |
| Projection.FrustumFarPlane | source/src/LowRenderer/Camera.cpp:218-229 | every point of the far plane z = -far goes to clip depth +w with w = far |
| Projection.Perspective | source/src/LowRenderer/Camera.cpp:231-246 | the fixed entries, the x scale equals the focal term divided by the aspect ratio, and the focal term is tan(pi/2 - fovY/2) except at fovY = 0 and fovY = 2 pi, where the guard leaves it 0 |
| Projection.PerspectiveDepthRange | source/src/LowRenderer/Camera.cpp:239-245 | w becomes the eye-space depth -z; the near plane goes to clip depth -w and the far plane to +w |
| Projection.Orthographic | source/src/LowRenderer/Camera.cpp:248-260 | the fixed entries of the orthographic matrix, with last row (0, 0, 0, 1) |
| Projection.OrthographicBox | source/src/LowRenderer/Camera.cpp:248-260 | the box corners (left, bottom, -zNear) and (right, top, -zFar) go to (-1, -1, -1) and (1, 1, 1) |
| CameraState.Move | source/src/LowRenderer/Camera.cpp:59-63 | eye and target move by the velocity, the eye-to-target vector is unchanged, and nothing else changes |
| CameraState.Turn | source/src/LowRenderer/Camera.cpp:65-97 | about X the pitch moves by the angle, clamped to [-(pi/2 - 1e-6), pi/2 - 1e-6]; about Y the yaw moves by the angle, unbounded; about Z neither moves; only the angles, the gaze, the eye and the target change (no latch) |
| CameraState.TurnSwingsGaze | source/src/LowRenderer/Camera.cpp:83-96 | the new gaze is the normalised direction of the new angles; in perspective mode the eye stays and the target sits one gaze ahead; in orthographic mode the target stays and the eye sits orthoScale gazes behind it |
| CameraState.Zoom | source/src/LowRenderer/Camera.cpp:99-116 | in perspective mode fovY moves by -yoffset degrees, clamped to [1, 179] degrees; in orthographic mode orthoScale moves by -0.1 * yoffset and fovY stays; projChanged is set, viewChanged and everything else stay |
| CameraState.LookAt | source/src/LowRenderer/Camera.cpp:154-159 | the target becomes the given point, the gaze points there from the unchanged eye, and viewChanged is set |
| CameraState.TurnInputs | source/src/LowRenderer/Camera.cpp:37-40 | a nonzero deltaX adds deltaX * deltaTime * camRotationSpeed to yaw; a nonzero deltaY sets pitch to the clamp of pitch - deltaY * deltaTime * camRotationSpeed to the tolerance; the pitch stays within the tolerance; only the angles, the gaze, the eye and the target change |
| CameraState.MouseTurn | source/src/LowRenderer/Camera.cpp:37-40 | a zero delta changes nothing; a nonzero one is exactly the turn by the angle about the axis; only the angles, the gaze, the eye and the target change |
| CameraState.MoveInputs | source/src/LowRenderer/Camera.cpp:42-56 | the movement keys change only eye and target, and never the eye-to-target vector |
| CameraState.MoveInputsDisplacement | source/src/LowRenderer/Camera.cpp:42-56 | the eye moves by the sum of the pressed keys' velocities, all from the start-of-frame gaze: forward +gaze, backward -gaze, moveLeft +normalize(up x gaze), moveRight its negation, each times deltaTime * camSpeed |
| CameraState.MoveForwardOnly | source/src/LowRenderer/Camera.cpp:42-43 | with only the forward key down the eye advances by gaze * deltaTime * camSpeed |
| CameraState.OppositeKeysCancel | source/src/LowRenderer/Camera.cpp:42-56 | with forward and backward equal and left and right equal, the keys leave the camera unchanged |
| CameraState.Rebuilt | source/src/LowRenderer/Camera.cpp:24-32 | each matrix is rebuilt exactly when its latch is set, the combined one when either is; the gaze becomes normalize(target - eye) when the view latch is set and stays otherwise; both latches end clear; nothing else changes |
| CameraState.Update | source/src/LowRenderer/Camera.cpp:22-57 | the rebuild of Rebuilt, then projChanged is clear and viewChanged is set exactly when there was input; without input the result is exactly Rebuilt; with input it is MoveInputs after TurnInputs applied to Rebuilt with viewChanged set; up and lens never change |
| CameraState.RebuildIsCoherent | source/src/LowRenderer/Camera.cpp:17-19 | SetView, SetProjection, ComputeViewProjection in that order leave every cached matrix equal to the one its parameters give, changing only the gaze and the matrices; view and projection are current even where a latch is set |
| CameraState.CoherentCombinedMatrix | source/src/LowRenderer/Camera.cpp:146-148 | in a coherent state the cached combined matrix applied to any point equals the view matrix applied first, then the projection |
| CameraState.UpdateKeepsCoherent | source/src/LowRenderer/Camera.cpp:22-57 | Update preserves the latch invariant (a clear latch means its matrix is current, and the combined matrix is the product); after a frame without input both matrices are current |
| CameraState.ZoomKeepsCoherent | source/src/LowRenderer/Camera.cpp:99-116 | Zoom preserves the latch invariant |
| CameraState.LookAtKeepsCoherent | source/src/LowRenderer/Camera.cpp:154-159 | LookAt preserves the latch invariant |
| CameraState.MoveKeepsCoherent | source/src/LowRenderer/Camera.cpp:59-63 | Move preserves the latch invariant when viewChanged is already set, as Update sets it before moving |
| CameraState.TurnKeepsCoherent | source/src/LowRenderer/Camera.cpp:65-97 | Turn preserves the latch invariant when viewChanged is already set |
| CameraState.UpdateIdempotent | source/src/LowRenderer/Camera.cpp:22-34 | two frames without input leave the camera as one does |
| CameraState.ZoomAvoidsDegenerateProjection | source/src/LowRenderer/Camera.cpp:101-109 | in perspective mode the zoom clamp keeps fovY away from the angles where Perspective's tangent guard fires, so the projection carries tan(pi/2 - fovY/2) |
| CameraState.TurnsStayBounded | source/src/LowRenderer/Camera.cpp:65-97 | over any sequence of turns the pitch stays within the tolerance, the yaw is the start plus the sum of the Y angles, and no latch changes |
| CameraState.MovesKeepGaze | source/src/LowRenderer/Camera.cpp:59-63 | over any sequence of moves the eye moves by their total, the eye-to-target vector is kept, and nothing else changes |
| CameraState.ZoomsStayBounded | source/src/LowRenderer/Camera.cpp:99-116 | in perspective mode, over any non-empty sequence of zooms (or any sequence starting in range), fovY ends in [1, 179] degrees; in orthographic mode orthoScale moves by -0.1 times the sum of the steps; mode and viewChanged stay |
| Cameras.Camera.constructor | source/src/LowRenderer/Camera.cpp:3-20 | the constants of the constructor, aspect = width / height, yaw = -pi/2, pitch = 0, the gaze toward the target, the view and projection matrices those of the new state whatever the latches, and the combined matrix their product |
| Cameras.Camera.Update | source/src/LowRenderer/Camera.cpp:22-57 | the new state is CameraState.Update of the old |
| Cameras.Camera.RebuildMatrices | source/src/LowRenderer/Camera.cpp:24-32 | the new state is CameraState.Rebuilt of the old |
| Cameras.Camera.TurnByInputs | source/src/LowRenderer/Camera.cpp:37-40 | the new state is CameraState.TurnInputs of the old |
| Cameras.Camera.TurnByMouse | source/src/LowRenderer/Camera.cpp:37-40 | the new state is CameraState.MouseTurn of the old |
| Cameras.Camera.MoveByInputs | source/src/LowRenderer/Camera.cpp:42-56 | the new state is CameraState.MoveInputs of the old |
| Cameras.Camera.Move | source/src/LowRenderer/Camera.cpp:59-63 | the new state is CameraState.Move of the old, and the eye-to-target vector is kept |
| Cameras.Camera.Turn | source/src/LowRenderer/Camera.cpp:65-97 | the new state is CameraState.Turn of the old |
| Cameras.Camera.Zoom | source/src/LowRenderer/Camera.cpp:99-116 | the new state is CameraState.Zoom of the old, and fovY lies in [1, 179] degrees in perspective mode |
| Cameras.Camera.SetView | source/src/LowRenderer/Camera.cpp:119-135 | the new state is CameraState.SetView of the old |
| Cameras.Camera.SetProjection | source/src/LowRenderer/Camera.cpp:138-144 | the new state is CameraState.SetProjection of the old |
| Cameras.Camera.ComputeViewProjection | source/src/LowRenderer/Camera.cpp:146-148 | the new state is CameraState.ComputeViewProjection of the old |
| Cameras.Camera.LookAt | source/src/LowRenderer/Camera.cpp:154-159 | the new state is CameraState.LookAt of the old |
| Cameras.Camera.LookAtPoint | source/src/LowRenderer/Camera.cpp:150-152 | the new state is CameraState.LookAt of the old, aimed at (x, y, z) |

## Left out

- Floating point: all arithmetic is on reals. Rounding, infinities and NaN are not modelled. A division by zero, which gives an infinity in the source (for example `Frustum` with `left == right`), yields 0 in the model (`Matrix.Recip`). The float values of the constants (pi, 1e-6, 0.1) are taken as exact.
- `cos`, `sin`, `tan` and `Vectorf3::Normalize` are uninterpreted. Nothing is proved that depends on their values: unit length of the gaze, orthogonality of the first view row, or that LookAt followed by Update aims the view at the target.
- The renderer's matrix library (Vectorf3, Matrix4x4 and their operators) is not part of this model. The standard definitions of the vector operations and of the matrix product stand in for it.
- Camera.hpp is not part of this model. The defaults it gives to `perspective`, `orthoScale`, `camSpeed`, `camRotationSpeed` and the two latches are constructor parameters.
- `yaw` and `pitch` are function-static locals of `Camera::Turn`, so all cameras in the program share them. The model gives each camera its own pair, initialised to -pi/2 and 0. It does not capture one camera's turns affecting another.
- `width` and `height` are `unsigned int`; they are natural numbers here, and a zero height gives aspect 0 (see the division convention above).
- `Camera::ShowImGuiControls` (UI widgets that write fields directly), the application loop that produces `CameraInputs`, and the model and material code that read the matrices are outside the model.
- `Move` and `Turn` set neither latch (Camera.cpp:59-63, 65-97). They keep the latch invariant only because `Update` sets `viewChanged` before calling them (`CameraState.MoveKeepsCoherent`, `CameraState.TurnKeepsCoherent`).
- `Cameras.Camera.RebuildMatrices`, `TurnByInputs`, `TurnByMouse` and `MoveByInputs` are not functions of the source. They are the consecutive parts of `Camera::Update`, split out so that each can be proved on its own.
