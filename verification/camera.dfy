/** `render::CameraSystem`: a fly-through camera whose state is process-wide
    (the static `cam` struct, plus the static "first mouse input" flag of the
    cursor callback). Cursor movement turns the camera, with pitch clamped;
    keys move it along its direction or sideways.

    Arithmetic is over `real`. Trigonometry, `glm::normalize`, `glm::lookAt`
    and `glm::perspective` are not computed: the trig and normalisation
    functions are inputs, and the two matrices are kept as the symbolic terms
    `LookAt(...)` and `Perspective(...)`. */
module Cameras {

  datatype Vec3 = Vec3(x: real, y: real, z: real)

  function Add(a: Vec3, b: Vec3): Vec3 { Vec3(a.x + b.x, a.y + b.y, a.z + b.z) }

  function Sub(a: Vec3, b: Vec3): Vec3 { Vec3(a.x - b.x, a.y - b.y, a.z - b.z) }

  function Scale(a: Vec3, k: real): Vec3 { Vec3(a.x * k, a.y * k, a.z * k) }

  function Cross(a: Vec3, b: Vec3): Vec3
  {
    Vec3(a.y * b.z - a.z * b.y, a.z * b.x - a.x * b.z, a.x * b.y - a.y * b.x)
  }

  /** A glm matrix, as the call that produced it. */
  datatype Mat4 =
    | Perspective(fov: real, aspect: real, near: real, far: real)
    | LookAt(eye: Vec3, center: Vec3, up: Vec3)

  /** `CameraSystem::UboData`. */
  datatype UboData = UboData(view: Mat4, proj: Mat4)

  datatype CameraDir = Forward | Backward | Left | Right

  /** cos and sin of an angle given in degrees (glm::radians folded in). */
  datatype Trig = Trig(cosDeg: real -> real, sinDeg: real -> real)

  /** The static camera state and the callback's static flag. */
  datatype CamState = CamState(
    pos: Vec3, dir: Vec3, up: Vec3,
    speed: real, sensitivity: real,
    lastX: real, lastY: real,
    pitch: real, yaw: real,
    firstMouseInput: bool)

  const ORIGIN: Vec3 := Vec3(0.0, 0.0, 0.0)

  /** `cam{}` and `first_mouse_input = false` at program start. */
  const ZERO_STATE: CamState := CamState(ORIGIN, ORIGIN, ORIGIN, 0.0, 0.0, 0.0, 0.0, 0.0, 0.0, false)

  /** The constructor's assignments: speed, sensitivity, and one component
      each of position, direction and up. Everything else is kept. */
  function Init(s: CamState): (r: CamState)
    ensures r.speed == 0.05 && r.sensitivity == 0.5
    ensures r.pos == s.pos.(z := 5.0) && r.dir == s.dir.(z := -1.0) && r.up == s.up.(y := 1.0)
    ensures r.(pos := s.pos, dir := s.dir, up := s.up, speed := s.speed, sensitivity := s.sensitivity) == s
  {
    s.(speed := 0.05, sensitivity := 0.5, pos := s.pos.(z := 5.0), dir := s.dir.(z := -1.0), up := s.up.(y := 1.0))
  }

  /** The first camera of the process starts at (0,0,5) looking along
      (0,0,-1) with up (0,1,0), speed 0.05 and sensitivity 0.5. */
  lemma InitialCamera()
    ensures var r := Init(ZERO_STATE);
      && r.pos == Vec3(0.0, 0.0, 5.0) && r.dir == Vec3(0.0, 0.0, -1.0) && r.up == Vec3(0.0, 1.0, 0.0)
      && r.speed == 0.05 && r.sensitivity == 0.5
      && r.pitch == 0.0 && r.yaw == 0.0 && !r.firstMouseInput
  {
  }

  /** The pitch clamp as written: above 89 becomes 89, below -89 becomes -88. */
  function ClampPitch(p: real): (r: real)
    ensures -89.0 <= r <= 89.0
    ensures -89.0 <= p <= 89.0 ==> r == p
    ensures p > 89.0 ==> r == 89.0
    ensures p < -89.0 ==> r == -88.0
  {
    var a := if p > 89.0 then 89.0 else p;
    if a < -89.0 then -88.0 else a
  }

  /** The clamp to [-89, 89] the code's comment and its upper branch describe. */
  function ClampPitchIntended(p: real): (r: real)
    ensures -89.0 <= r <= 89.0
    ensures -89.0 <= p <= 89.0 ==> r == p
    ensures p > 89.0 ==> r == 89.0
    ensures p < -89.0 ==> r == -89.0
  {
    if p > 89.0 then 89.0 else if p < -89.0 then -89.0 else p
  }

  /** The clamp as written is not the nearest point of [-89, 89]: dragging
      below the limit snaps pitch one degree back up. */
  lemma ClampPitchAsymmetric()
    ensures ClampPitch(-90.0) == -88.0 && ClampPitchIntended(-90.0) == -89.0
    ensures ClampPitch(90.0) == 89.0 && ClampPitchIntended(90.0) == 89.0
  {
  }

  /** The intended clamp is monotonic and idempotent. */
  lemma ClampPitchIntendedMonotonic(p: real, q: real)
    ensures p <= q ==> ClampPitchIntended(p) <= ClampPitchIntended(q)
    ensures ClampPitchIntended(ClampPitchIntended(p)) == ClampPitchIntended(p)
  {
  }

  /** The direction the callback stores: the un-normalised vector, because
      the result of `glm::normalize` is discarded. */
  function DirFromAngles(trig: Trig, yaw: real, pitch: real): (r: Vec3)
    ensures r.y == trig.sinDeg(pitch)
    ensures r.x == trig.cosDeg(yaw) * trig.cosDeg(pitch) && r.z == trig.sinDeg(yaw) * trig.cosDeg(pitch)
    ensures trig.cosDeg(pitch) == 0.0 ==> r.x == 0.0 && r.z == 0.0
  {
    Vec3(trig.cosDeg(yaw) * trig.cosDeg(pitch), trig.sinDeg(pitch), trig.sinDeg(yaw) * trig.cosDeg(pitch))
  }

  /** A cursor offset scaled by the sensitivity. */
  function Scaled(offset: real, sensitivity: real): real
  {
    offset * sensitivity
  }

  /** `mouseMovementCallback`: the first call ever latches the last cursor
      position, so its offsets are zero; every call then records the cursor,
      turns by the scaled offsets, clamps pitch and recomputes the direction. */
  function MouseStep(s: CamState, xpos: real, ypos: real, trig: Trig): (r: CamState)
    ensures r.lastX == xpos && r.lastY == ypos && r.firstMouseInput
    ensures r.pos == s.pos && r.up == s.up && r.speed == s.speed && r.sensitivity == s.sensitivity
    ensures var lx := if s.firstMouseInput then s.lastX else xpos;
      r.yaw == s.yaw + Scaled(lx - xpos, s.sensitivity)
    ensures var ly := if s.firstMouseInput then s.lastY else ypos;
      r.pitch == ClampPitch(s.pitch + Scaled(ly - ypos, s.sensitivity))
    ensures -89.0 <= r.pitch <= 89.0
    ensures r.dir == DirFromAngles(trig, r.yaw, r.pitch)
  {
    var latched := if s.firstMouseInput then s else s.(lastX := xpos, lastY := ypos, firstMouseInput := true);
    var xoffset := Scaled(latched.lastX - xpos, s.sensitivity);
    var yoffset := Scaled(latched.lastY - ypos, s.sensitivity);
    var yaw := s.yaw + xoffset;
    var pitch := ClampPitch(s.pitch + yoffset);
    latched.(lastX := xpos, lastY := ypos, yaw := yaw, pitch := pitch, dir := DirFromAngles(trig, yaw, pitch))
  }

  /** The first callback turns nothing: yaw is kept and pitch only clamped. */
  lemma FirstCallbackHasZeroOffsets(s: CamState, xpos: real, ypos: real, trig: Trig)
    requires !s.firstMouseInput
    ensures MouseStep(s, xpos, ypos, trig).yaw == s.yaw
    ensures MouseStep(s, xpos, ypos, trig).pitch == ClampPitch(s.pitch)
  {
  }

  /** Two callbacks at the same cursor position: the second turns nothing. */
  lemma StillCursorDoesNotTurn(s: CamState, xpos: real, ypos: real, trig: Trig)
    ensures var once := MouseStep(s, xpos, ypos, trig);
      var twice := MouseStep(once, xpos, ypos, trig);
      twice.yaw == once.yaw && twice.pitch == once.pitch && twice.dir == once.dir
  {
  }

  /** The sideways step of LEFT and RIGHT. */
  function SideStep(s: CamState, normalize: Vec3 -> Vec3): Vec3
  {
    Scale(normalize(Cross(s.dir, s.up)), s.speed)
  }

  /** `moveCamera`: only the position changes; forward and backward move by
      direction times speed, left and right by the normalised side vector. */
  function MoveStep(s: CamState, d: CameraDir, normalize: Vec3 -> Vec3): (r: CamState)
    ensures r.(pos := s.pos) == s
    ensures d == Forward ==> r.pos == Add(s.pos, Scale(s.dir, s.speed))
    ensures d == Backward ==> r.pos == Sub(s.pos, Scale(s.dir, s.speed))
    ensures d == Left ==> r.pos == Add(s.pos, SideStep(s, normalize))
    ensures d == Right ==> r.pos == Sub(s.pos, SideStep(s, normalize))
  {
    match d
    case Forward => s.(pos := Add(s.pos, Scale(s.dir, s.speed)))
    case Backward => s.(pos := Sub(s.pos, Scale(s.dir, s.speed)))
    case Left => s.(pos := Add(s.pos, SideStep(s, normalize)))
    case Right => s.(pos := Sub(s.pos, SideStep(s, normalize)))
  }

  function Opposite(d: CameraDir): CameraDir
  {
    match d
    case Forward => Backward
    case Backward => Forward
    case Left => Right
    case Right => Left
  }

  /** Over the reals, each direction is undone by its opposite. */
  lemma MoveThenOppositeRestores(s: CamState, d: CameraDir, normalize: Vec3 -> Vec3)
    ensures MoveStep(MoveStep(s, d, normalize), Opposite(d), normalize) == s
  {
    var m := MoveStep(s, d, normalize);
    assert SideStep(m, normalize) == SideStep(s, normalize);
  }

  /** The keys `processKeyboardMovement` polls. */
  datatype Key = W | S | A | D

  /** W, S, A and D are checked in that order, each moving once if pressed. */
  function KeyboardStep(s: CamState, pressed: set<Key>, normalize: Vec3 -> Vec3): (r: CamState)
    ensures r.(pos := s.pos) == s
    ensures pressed == {} ==> r == s
    ensures pressed == {W} ==> r == MoveStep(s, Forward, normalize)
    ensures pressed == {S} ==> r == MoveStep(s, Backward, normalize)
    ensures pressed == {A} ==> r == MoveStep(s, Left, normalize)
    ensures pressed == {D} ==> r == MoveStep(s, Right, normalize)
  {
    var s1 := if W in pressed then MoveStep(s, Forward, normalize) else s;
    var s2 := if S in pressed then MoveStep(s1, Backward, normalize) else s1;
    var s3 := if A in pressed then MoveStep(s2, Left, normalize) else s2;
    if D in pressed then MoveStep(s3, Right, normalize) else s3
  }

  /** Holding opposite keys together cancels out, over the reals: in float
      arithmetic the two moves need not round back to the start. */
  lemma {:induction false} OppositeKeysCancel(s: CamState, normalize: Vec3 -> Vec3)
    ensures KeyboardStep(s, {W, S}, normalize) == s
    ensures KeyboardStep(s, {A, D}, normalize) == s
    ensures KeyboardStep(s, {W, S, A, D}, normalize) == s
  {
    MoveThenOppositeRestores(s, Forward, normalize);
    MoveThenOppositeRestores(s, Left, normalize);
  }

  /** The process-wide statics: `cam` and `first_mouse_input`. */
  class CameraStatics {
    var pos: Vec3
    var dir: Vec3
    var up: Vec3
    var speed: real
    var sensitivity: real
    var lastX: real
    var lastY: real
    var pitch: real
    var yaw: real
    var firstMouseInput: bool

    function State(): CamState
      reads this
    {
      CamState(pos, dir, up, speed, sensitivity, lastX, lastY, pitch, yaw, firstMouseInput)
    }

    /** Zero-initialised at program start. */
    constructor ()
      ensures State() == ZERO_STATE
    {
      pos, dir, up := ORIGIN, ORIGIN, ORIGIN;
      speed, sensitivity := 0.0, 0.0;
      lastX, lastY, pitch, yaw := 0.0, 0.0, 0.0, 0.0;
      firstMouseInput := false;
    }

    /** `mouseMovementCallback`. */
    method MouseMovementCallback(xpos: real, ypos: real, trig: Trig)
      modifies this
      ensures State() == MouseStep(old(State()), xpos, ypos, trig)
      ensures -89.0 <= pitch <= 89.0 && lastX == xpos && lastY == ypos
    {
      if !firstMouseInput {
        lastX := xpos;
        lastY := ypos;
        firstMouseInput := true;
      }
      var xoffset := lastX - xpos;
      var yoffset := lastY - ypos;
      lastX := xpos;
      lastY := ypos;
      xoffset := Scaled(xoffset, sensitivity);
      yoffset := Scaled(yoffset, sensitivity);
      yaw := yaw + xoffset;
      pitch := pitch + yoffset;
      if pitch > 89.0 {
        pitch := 89.0;
      }
      if pitch < -89.0 {
        pitch := -88.0;
      }
      dir := DirFromAngles(trig, yaw, pitch);
    }
  }

  class CameraSystem {
    const statics: CameraStatics
    const projMatrix: Mat4

    /** `CameraSystem(window, aspectRatio, fov)`: sets the camera's starting
        values in the shared statics and builds the projection once. */
    constructor (statics: CameraStatics, aspectRatio: real, fov: real)
      modifies statics
      ensures this.statics == statics
      ensures statics.State() == Init(old(statics.State()))
      ensures projMatrix == Perspective(fov, aspectRatio, 0.1, 100.0)
    {
      this.statics := statics;
      projMatrix := Perspective(fov, aspectRatio, 0.1, 100.0);
      new;
      statics.speed := 0.05;
      statics.sensitivity := 0.5;
      statics.pos := statics.pos.(z := 5.0);
      statics.dir := statics.dir.(z := -1.0);
      statics.up := statics.up.(y := 1.0);
    }

    /** `genCurrentVPMatrices`: a view looking from the position along the
        direction, and the constructor's projection, unchanged. Reads only. */
    method GenCurrentVPMatrices() returns (data: UboData)
      ensures data.proj == projMatrix
      ensures data.view == LookAt(statics.pos, Add(statics.pos, statics.dir), statics.up)
    {
      data := UboData(LookAt(statics.pos, Add(statics.pos, statics.dir), statics.up), projMatrix);
    }

    /** `moveCamera`. */
    method MoveCamera(d: CameraDir, normalize: Vec3 -> Vec3)
      modifies statics
      ensures statics.State() == MoveStep(old(statics.State()), d, normalize)
    {
      var scaled := ORIGIN;
      match d {
        case Forward =>
          scaled := Scale(statics.dir, statics.speed);
          statics.pos := Add(statics.pos, scaled);
        case Backward =>
          scaled := Scale(statics.dir, statics.speed);
          statics.pos := Sub(statics.pos, scaled);
        case Left =>
          scaled := Cross(statics.dir, statics.up);
          scaled := normalize(scaled);
          scaled := Scale(scaled, statics.speed);
          statics.pos := Add(statics.pos, scaled);
        case Right =>
          scaled := Cross(statics.dir, statics.up);
          scaled := normalize(scaled);
          scaled := Scale(scaled, statics.speed);
          statics.pos := Sub(statics.pos, scaled);
      }
    }

    /** `processKeyboardMovement`: the window's key state is the input set. */
    method ProcessKeyboardMovement(pressed: set<Key>, normalize: Vec3 -> Vec3)
      modifies statics
      ensures statics.State() == KeyboardStep(old(statics.State()), pressed, normalize)
    {
      if W in pressed {
        MoveCamera(Forward, normalize);
      }
      if S in pressed {
        MoveCamera(Backward, normalize);
      }
      if A in pressed {
        MoveCamera(Left, normalize);
      }
      if D in pressed {
        MoveCamera(Right, normalize);
      }
    }
  }
}
