/** The first-person perspective camera: its state and the discrete update
    rules of its keyboard, mouse and scroll events. Scalars are reals. The
    trigonometry and normalisation behind the camera basis are supplied as
    functions the model does not interpret, and the view and projection
    matrices are kept as the symbolic terms glm is asked to compute. */
module Camera {

  /** A glm vector whose components the camera computes with: the Euler
      angles (x is the pitch, y the yaw, z is unused), in degrees. */
  datatype Euler = Euler(x: real, y: real, z: real)

  /** glm vectors the camera only passes around and combines, as the glm
      expressions that produce them. */
  datatype Vec3 =
    | Literal(x: real, y: real, z: real)
    | Sum(a: Vec3, b: Vec3)
    | Difference(a: Vec3, b: Vec3)
    | Scaled(v: Vec3, k: real)
    | Normalized(v: Vec3)
    | CrossProduct(a: Vec3, b: Vec3)
      /** (cos p cos y, sin p, cos p sin y) for pitch p and yaw y in degrees */
    | EulerDirection(pitch: real, yaw: real)

  /** 4x4 matrices, as the glm expressions that produce them. */
  datatype Mat4 =
    | LookAt(eye: Vec3, center: Vec3, up: Vec3)
    | Perspective(fovDegrees: real, aspect: real, near: real, far: real)
    | Product(left: Mat4, right: Mat4)

  datatype CameraMovement = Forward | Backward | Left | Right

  const PITCH_LIMIT: real := 89.0
  const MIN_ZOOM: real := 1.0
  const MAX_ZOOM: real := 45.0
  const ASPECT: real := 800.0 / 600.0
  const NEAR_PLANE: real := 0.1
  const FAR_PLANE: real := 100.0

  /** Pitch after the optional constraint: cut to 89 from above, then to -89
      from below. The result lies in [-89, 89], a pitch already in range is
      kept, and one out of range goes to the nearer bound. */
  function ConstrainPitch(pitch: real): (r: real)
    ensures -PITCH_LIMIT <= r <= PITCH_LIMIT
    ensures -PITCH_LIMIT <= pitch <= PITCH_LIMIT ==> r == pitch
    ensures pitch > PITCH_LIMIT ==> r == PITCH_LIMIT
    ensures pitch < -PITCH_LIMIT ==> r == -PITCH_LIMIT
  {
    var capped := if pitch > PITCH_LIMIT then PITCH_LIMIT else pitch;
    if capped < -PITCH_LIMIT then -PITCH_LIMIT else capped
  }

  /** Zoom after a scroll: raised to 1 from below, then cut to 45 from above.
      The result lies in [1, 45], a zoom already in range is kept, and one out
      of range goes to the nearer bound. */
  function ClampZoom(zoom: real): (r: real)
    ensures MIN_ZOOM <= r <= MAX_ZOOM
    ensures MIN_ZOOM <= zoom <= MAX_ZOOM ==> r == zoom
    ensures zoom < MIN_ZOOM ==> r == MIN_ZOOM
    ensures zoom > MAX_ZOOM ==> r == MAX_ZOOM
  {
    var raised := if zoom < MIN_ZOOM then MIN_ZOOM else zoom;
    if raised > MAX_ZOOM then MAX_ZOOM else raised
  }

  /** `Perspective_Camera`. */
  class PerspectiveCamera {
    const worldUp: Vec3

    var position: Vec3
    var front: Vec3
    var up: Vec3
    var right: Vec3
    var euler: Euler
    var fov: real
    var cameraSpeed: real
    var mouseSensitivity: real
    var zoom: real
    var viewMatrix: Mat4
    var viewProjectionMatrix: Mat4

    /** front, right and up are those derived from the current Euler angles. */
    predicate BasisCurrent()
      reads this`front, this`right, this`up, this`euler
    {
      front == Normalized(EulerDirection(euler.x, euler.y))
      && right == Normalized(CrossProduct(front, worldUp))
      && up == Normalized(CrossProduct(right, front))
    }

    /** The view and view-projection matrices are those of the current
        position, basis and field of view. */
    predicate MatricesCurrent()
      reads this`viewMatrix, this`viewProjectionMatrix, this`position, this`front, this`up, this`fov
    {
      viewMatrix == LookAt(position, Sum(position, front), up)
      && viewProjectionMatrix == Product(Perspective(fov, ASPECT, NEAR_PLANE, FAR_PLANE), viewMatrix)
    }

    predicate PitchConstrained()
      reads this`euler
    {
      -PITCH_LIMIT <= euler.x <= PITCH_LIMIT
    }

    predicate ZoomClamped()
      reads this`zoom, this`fov
    {
      zoom == fov && MIN_ZOOM <= zoom <= MAX_ZOOM
    }

    /** Zoom starts at the given field of view (which is not clamped), speed
        at 2.5 and mouse sensitivity at 0.01; the basis and matrices are then
        derived. */
    constructor (position: Vec3 := Literal(0.0, 0.0, 0.0), euler: Euler := Euler(0.0, -90.0, 0.0),
                 up: Vec3 := Literal(0.0, 1.0, 0.0), fov: real := 45.0)
      ensures this.position == position && this.euler == euler && worldUp == up
      ensures this.fov == fov && zoom == fov
      ensures cameraSpeed == 2.5 && mouseSensitivity == 0.01
      ensures BasisCurrent() && MatricesCurrent()
    {
      this.position := position;
      worldUp := up;
      this.fov := fov;
      this.euler := euler;
      cameraSpeed := 2.5;
      mouseSensitivity := 0.01;
      zoom := fov;
      new;
      UpdateCameraSpaceVector();
      UpdateViewMatrix();
    }

    /** Moves along front or right by speed times the frame time; nothing but
        the position and the matrices changes. */
    method ProcessKeyEvent(direction: CameraMovement, deltaTime: real)
      modifies this`position, this`viewMatrix, this`viewProjectionMatrix
      ensures direction == Forward ==> position == Sum(old(position), Scaled(front, cameraSpeed * deltaTime))
      ensures direction == Backward ==> position == Difference(old(position), Scaled(front, cameraSpeed * deltaTime))
      ensures direction == Left ==> position == Difference(old(position), Scaled(right, cameraSpeed * deltaTime))
      ensures direction == Right ==> position == Sum(old(position), Scaled(right, cameraSpeed * deltaTime))
      ensures euler == old(euler) && zoom == old(zoom) && fov == old(fov)
      ensures MatricesCurrent()
      ensures old(BasisCurrent()) ==> BasisCurrent()
      ensures old(PitchConstrained()) ==> PitchConstrained()
      ensures old(ZoomClamped()) ==> ZoomClamped()
    {
      var speed := cameraSpeed * deltaTime;
      if direction == Forward {
        position := Sum(position, Scaled(front, speed));
      }
      if direction == Backward {
        position := Difference(position, Scaled(front, speed));
      }
      if direction == Left {
        position := Difference(position, Scaled(right, speed));
      }
      if direction == Right {
        position := Sum(position, Scaled(right, speed));
      }
      UpdateViewMatrix();
      assert speed == cameraSpeed * deltaTime;
    }

    /** Turns by the scaled offsets: yaw (euler.y) is never clamped; pitch
        (euler.x) is constrained to [-89, 89] when asked, which is the
        default. The basis and matrices are derived again; the position,
        zoom and field of view stay. */
    method ProcessMouseEvent(xOffset: real, yOffset: real, constrainPitch: bool := true)
      modifies this`euler, this`front, this`right, this`up, this`viewMatrix, this`viewProjectionMatrix
      ensures euler.y == old(euler.y) + xOffset * mouseSensitivity
      ensures constrainPitch ==> euler.x == ConstrainPitch(old(euler.x) + yOffset * mouseSensitivity)
      ensures !constrainPitch ==> euler.x == old(euler.x) + yOffset * mouseSensitivity
      ensures euler.z == old(euler.z)
      ensures constrainPitch ==> PitchConstrained()
      ensures position == old(position) && zoom == old(zoom) && fov == old(fov)
      ensures BasisCurrent() && MatricesCurrent()
      ensures old(ZoomClamped()) ==> ZoomClamped()
    {
      var dx := xOffset * mouseSensitivity;
      var dy := yOffset * mouseSensitivity;
      euler := euler.(y := euler.y + dx);
      euler := euler.(x := euler.x + dy);
      if constrainPitch {
        if euler.x > PITCH_LIMIT {
          euler := euler.(x := PITCH_LIMIT);
        }
        if euler.x < -PITCH_LIMIT {
          euler := euler.(x := -PITCH_LIMIT);
        }
      }
      UpdateCameraSpaceVector();
      UpdateViewMatrix();
    }

    /** Zooms by the scroll offset, clamps the zoom to [1, 45] and makes it the
        field of view; the position and the Euler angles stay. */
    method ProcessScrollEvent(yOffset: real)
      modifies this`zoom, this`fov, this`viewMatrix, this`viewProjectionMatrix
      ensures zoom == ClampZoom(old(zoom) - yOffset)
      ensures fov == zoom
      ensures ZoomClamped()
      ensures position == old(position) && euler == old(euler)
      ensures MatricesCurrent()
      ensures old(BasisCurrent()) ==> BasisCurrent()
      ensures old(PitchConstrained()) ==> PitchConstrained()
    {
      zoom := zoom - yOffset;
      if zoom < MIN_ZOOM {
        zoom := MIN_ZOOM;
      }
      if zoom > MAX_ZOOM {
        zoom := MAX_ZOOM;
      }
      fov := zoom;
      UpdateViewMatrix();
    }

    method SetCameraSpeed(speed: real)
      modifies this`cameraSpeed
      ensures cameraSpeed == speed
    {
      cameraSpeed := speed;
    }

    method SetMouseSensitivity(sensitivity: real)
      modifies this`mouseSensitivity
      ensures mouseSensitivity == sensitivity
    {
      mouseSensitivity := sensitivity;
    }

    /** Overwrites the position only: the matrices keep describing the old
        position until the next event. */
    method SetPosition(p: Vec3)
      modifies this`position
      ensures position == p
      ensures viewMatrix == old(viewMatrix) && viewProjectionMatrix == old(viewProjectionMatrix)
    {
      position := p;
    }

    /** Overwrites the Euler angles only: the basis and the matrices keep
        describing the old angles until the next event. */
    method SetEuler(e: Euler)
      modifies this`euler
      ensures euler == e
      ensures front == old(front) && right == old(right) && up == old(up)
      ensures viewMatrix == old(viewMatrix) && viewProjectionMatrix == old(viewProjectionMatrix)
    {
      euler := e;
    }

    method GetViewMatrix() returns (m: Mat4)
      ensures m == viewMatrix
    {
      m := viewMatrix;
    }

    method GetViewProjectionMatrix() returns (m: Mat4)
      ensures m == viewProjectionMatrix
    {
      m := viewProjectionMatrix;
    }

    method GetEuler() returns (e: Euler)
      ensures e == euler
    {
      e := euler;
    }

    method UpdateViewMatrix()
      modifies this`viewMatrix, this`viewProjectionMatrix
      ensures MatricesCurrent()
    {
      viewMatrix := LookAt(position, Sum(position, front), up);
      var projection := Perspective(fov, ASPECT, NEAR_PLANE, FAR_PLANE);
      viewProjectionMatrix := Product(projection, viewMatrix);
    }

    method UpdateCameraSpaceVector()
      modifies this`front, this`right, this`up
      ensures BasisCurrent()
    {
      front := Normalized(EulerDirection(euler.x, euler.y));
      right := Normalized(CrossProduct(front, worldUp));
      up := Normalized(CrossProduct(right, front));
    }
  }
}
