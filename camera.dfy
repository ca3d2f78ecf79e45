/** The free-fly camera of untitled/Camera.h.

    The camera keeps a position, a look direction, an up vector and the time
    step of the current tick. Camera::Rotate keeps the previous mouse positions in
    two function-static locals that are initialised from the arguments of the
    first call; here they are the fields `lastMouseX`/`lastMouseY`, and `looked`
    records whether that first call has happened. */
module CameraModel {
  import opened Vectors

  /** fMoveSpeed: units per second of MoveW/MoveS/MoveD/MoveA. */
  const MoveSpeed: real := 5.0
  /** fRotateSpeed: radians per unit of applied mouse delta. */
  const RotateSpeed: real := 0.003
  /** Largest mouse delta Rotate applies on one axis in one call. */
  const MaxLookStep: int := 20

  /** The four `if` statements of Rotate that clamp one axis of the delta. */
  function ClampLookStep(d: int): (r: int)
    ensures -MaxLookStep <= r <= MaxLookStep
    ensures -MaxLookStep <= d <= MaxLookStep ==> r == d
    ensures d < -MaxLookStep ==> r == -MaxLookStep
    ensures d > MaxLookStep ==> r == MaxLookStep
  {
    var low := if d < -20 then -20 else d;
    if low > 20 then 20 else low
  }

  /** The delta Rotate applies on one axis: the clamped difference between the
      current argument and the previous one, where before the first call the
      static is initialised from the current argument itself. */
  function LookDelta(looked: bool, last: int, current: int): int {
    var previous := if looked then last else current;
    ClampLookStep(current - previous)
  }

  /** The first call of Rotate applies no rotation at all, whatever the cursor position. */
  lemma FirstLookIsStill(last: int, current: int)
    ensures LookDelta(false, last, current) == 0
  {
  }

  /** Every later call applies the difference of consecutive arguments, clamped
      to [-20, 20]; a difference already inside that range is applied as it is. */
  lemma LookDeltaIsClampedDifference(last: int, current: int)
    ensures -MaxLookStep <= LookDelta(true, last, current) <= MaxLookStep
    ensures -MaxLookStep <= current - last <= MaxLookStep ==>
              LookDelta(true, last, current) == current - last
    ensures current - last > MaxLookStep ==> LookDelta(true, last, current) == MaxLookStep
    ensures current - last < -MaxLookStep ==> LookDelta(true, last, current) == -MaxLookStep
  {
  }

  /** The direction Rotate leaves: `dir` pitched about cross(dir, up) by the
      vertical delta and yawed about world-up by the horizontal one, each delta
      negated and scaled by RotateSpeed. */
  function Turned(dir: Vec3, up: Vec3, deltaX: int, deltaY: int, turn: Rotator): Vec3 {
    turn(dir, Cross(dir, up), -(deltaY as real) * RotateSpeed, -(deltaX as real) * RotateSpeed)
  }

  class Camera {
    var pos: Vec3
    var dir: Vec3
    var up: Vec3
    var dt: real
    /** Whether Rotate's static locals have been initialised. */
    var looked: bool
    /** nElapsedMouseX / nElapsedMouseY of Rotate. */
    var lastMouseX: int
    var lastMouseY: int

    /** The implicit constructor: pos, dir, up and dt are left uninitialised by
        the source, so nothing is promised about them. */
    constructor ()
      ensures !looked
    {
      pos, dir, up := Zero, Zero, Zero;
      dt := 0.0;
      looked := false;
      lastMouseX, lastMouseY := 0, 0;
    }

    /** Places the camera at `eye` looking towards `at`, with world-up as up. */
    method Init(eye: Vec3, at: Vec3, normalize: Normalizer)
      modifies this
      ensures pos == eye && dir == normalize(Sub(at, eye)) && up == WorldUp
      ensures dt == old(dt)
      ensures looked == old(looked) && lastMouseX == old(lastMouseX) && lastMouseY == old(lastMouseY)
    {
      pos := eye;
      dir := normalize(Sub(at, eye));
      up := Vec3(0.0, 1.0, 0.0);
    }

    /** Stores the time step used by the Move methods; nothing else changes. */
    method Update(dt: real)
      modifies this
      ensures this.dt == dt
      ensures pos == old(pos) && dir == old(dir) && up == old(up)
      ensures looked == old(looked) && lastMouseX == old(lastMouseX) && lastMouseY == old(lastMouseY)
    {
      this.dt := dt;
    }

    /** Forward: pos moves by dir * speed * dt. */
    method MoveW()
      modifies this
      ensures pos == Add(old(pos), Scale(dir, MoveSpeed * dt))
      ensures dir == old(dir) && up == old(up) && dt == old(dt)
      ensures looked == old(looked) && lastMouseX == old(lastMouseX) && lastMouseY == old(lastMouseY)
    {
      pos := Add(pos, Scale(Scale(dir, MoveSpeed), dt));
    }

    /** Backward: pos moves by -(dir * speed * dt). */
    method MoveS()
      modifies this
      ensures pos == Sub(old(pos), Scale(dir, MoveSpeed * dt))
      ensures dir == old(dir) && up == old(up) && dt == old(dt)
      ensures looked == old(looked) && lastMouseX == old(lastMouseX) && lastMouseY == old(lastMouseY)
    {
      pos := Sub(pos, Scale(Scale(dir, MoveSpeed), dt));
    }

    /** Right: pos moves along cross(dir, up) * speed * dt. */
    method MoveD()
      modifies this
      ensures pos == Add(old(pos), Scale(Cross(dir, up), MoveSpeed * dt))
      ensures dir == old(dir) && up == old(up) && dt == old(dt)
      ensures looked == old(looked) && lastMouseX == old(lastMouseX) && lastMouseY == old(lastMouseY)
    {
      var right := Cross(dir, up);
      pos := Add(pos, Scale(Scale(right, MoveSpeed), dt));
    }

    /** Left: pos moves against cross(dir, up) * speed * dt. */
    method MoveA()
      modifies this
      ensures pos == Sub(old(pos), Scale(Cross(dir, up), MoveSpeed * dt))
      ensures dir == old(dir) && up == old(up) && dt == old(dt)
      ensures looked == old(looked) && lastMouseX == old(lastMouseX) && lastMouseY == old(lastMouseY)
    {
      var right := Cross(dir, up);
      pos := Sub(pos, Scale(Scale(right, MoveSpeed), dt));
    }

    /** Mouse-look. The statics always end up holding the current arguments, even
        when the applied delta was clamped; the direction is turned by the
        clamped deltas (pitch about cross(dir, up), then yaw about world-up). */
    method Rotate(mouseX: int, mouseY: int, turn: Rotator)
      modifies this
      ensures looked && lastMouseX == mouseX && lastMouseY == mouseY
      ensures dir == Turned(old(dir), up, LookDelta(old(looked), old(lastMouseX), mouseX),
                            LookDelta(old(looked), old(lastMouseY), mouseY), turn)
      ensures pos == old(pos) && up == old(up) && dt == old(dt)
    {
      if !looked {
        lastMouseX, lastMouseY := mouseX, mouseY;
        looked := true;
      }
      var diffX := mouseX - lastMouseX;
      var diffY := mouseY - lastMouseY;
      lastMouseX := mouseX;
      lastMouseY := mouseY;

      if diffX < -20 { diffX := -20; }
      if diffY < -20 { diffY := -20; }
      if diffX > 20 { diffX := 20; }
      if diffY > 20 { diffY := 20; }

      var axisX := Cross(dir, up);
      dir := turn(dir, axisX, -(diffY as real) * RotateSpeed, -(diffX as real) * RotateSpeed);
    }

    /** The eye position: the look-at point lies one direction vector ahead of it. */
    function GetPos(): (p: Vec3)
      reads this
      ensures Add(p, dir) == GetAt()
    {
      pos
    }

    /** The look-at point lies exactly one direction vector ahead of pos. */
    function GetAt(): (at: Vec3)
      reads this
      ensures Sub(at, pos) == dir
    {
      Add(pos, dir)
    }

    /** Teleports the camera; GetPos() then returns p and nothing else changes. */
    method SetPos(p: Vec3)
      modifies this
      ensures GetPos() == p
      ensures dir == old(dir) && up == old(up) && dt == old(dt)
      ensures looked == old(looked) && lastMouseX == old(lastMouseX) && lastMouseY == old(lastMouseY)
    {
      pos := p;
    }
  }
}
