/** The input state, per-tick control and scene bookkeeping of MainWindow
    (untitled/mainwindow.cpp).

    The window keeps a table of 256 key states, the mouse-look flag, the two
    uint64 timer readings of the last tick and the tick's time step, the
    camera, and the lockstep lists of dynamic bodies and their textures. The
    physics engine and OpenGL are the Platform services; the timer, the widget
    and window sizes, the cursor, `glm::normalize` and the camera's rotation
    maths are parameters of the operations that use them. */
module MainWindowModel {
  import opened Vectors
  import opened CameraModel
  import opened MeshSpec
  import opened Platform
  import opened FrameSpec

  /** Size of the key table m_bKeys; codes 0..255 are recorded. */
  const KeyCount: int := 256
  /** Qt::Key_W, Qt::Key_S, Qt::Key_D, Qt::Key_A and Qt::Key_Escape. */
  const KeyW: int := 0x57
  const KeyS: int := 0x53
  const KeyD: int := 0x44
  const KeyA: int := 0x41
  const KeyEscape: int := 0x0100_0000

  /** The timer readings are uint64_t, so their difference wraps modulo 2^64. */
  const TimeModulus: nat := 0x1_0000_0000_0000_0000
  const NanosPerSecond: real := 1000000000.0
  /** Largest time step of one tick: 1/30 s. */
  const MaxStep: real := 1.0 / 30.0
  /** fMoveVelocity of the keyboard movement, units per second. */
  const MoveVelocity: real := 6.0

  /** The barrel grid of InitScene: x and z each run over -5..4, y over 0..49. */
  const GridSide: nat := 10
  const GridLayers: nat := 50
  const InstanceCount: nat := 5000
  const GridSpacing: real := 1.5
  const BarrelMass: real := 10.0
  /** The stride CreateConvexMesh passes with its point array: 3 * sizeof(float). */
  const HullStride: nat := 12

  /** The gravity setGravity installs after the scene is registered. */
  const Gravity: Vec3 := Vec3(0.0, -9.81, 0.0)
  /** Where InitScene places the camera, and where it looks. */
  const CameraEye: Vec3 := Vec3(20.0, 3.0, 20.0)

  // ----- input -------------------------------------------------------------

  /** The key table after an event for `key` that sets its state to `down`;
      codes outside 0..255 are ignored. */
  function SetKey(keys: seq<bool>, key: int, down: bool): (r: seq<bool>)
    requires |keys| == KeyCount
    ensures |r| == KeyCount
    ensures forall j :: 0 <= j < KeyCount && j != key ==> r[j] == keys[j]
    ensures 0 <= key < KeyCount ==> r[key] == down
    ensures !(0 <= key < KeyCount) ==> r == keys
  {
    if 0 <= key && key <= 255 then keys[key := down] else keys
  }

  /** Escape is outside the key table: pressing it changes no key entry. */
  lemma EscapeKeepsKeys(keys: seq<bool>, down: bool)
    requires |keys| == KeyCount
    ensures SetKey(keys, KeyEscape, down) == keys
  {
  }

  /** Releasing a key undoes pressing it when it was up before. */
  lemma PressReleaseRestores(keys: seq<bool>, key: int)
    requires |keys| == KeyCount
    requires 0 <= key < KeyCount ==> !keys[key]
    ensures SetKey(SetKey(keys, key, true), key, false) == keys
  {
    if 0 <= key < KeyCount {
      assert SetKey(SetKey(keys, key, true), key, false) == keys[key := false];
    }
  }

  // ----- time step -----------------------------------------------------------

  /** m_nCurrentTime - m_nElapsedTime in uint64_t arithmetic. */
  function Elapsed(previous: nat, current: nat): (r: nat)
    requires previous < TimeModulus && current < TimeModulus
    ensures r < TimeModulus
    ensures previous <= current ==> r == current - previous
    ensures current < previous ==> r == TimeModulus - (previous - current)
  {
    (current - previous) % TimeModulus
  }

  /** A tick is skipped exactly when the timer has not advanced. */
  lemma ElapsedZero(previous: nat, current: nat)
    requires previous < TimeModulus && current < TimeModulus
    ensures Elapsed(previous, current) == 0 <==> previous == current
  {
  }

  /** The step a tick uses: the elapsed nanoseconds in seconds, capped at 1/30;
      zero elapsed time gives zero, which makes the tick return early. */
  function TickStep(elapsed: nat): (dt: real)
    ensures elapsed == 0 ==> dt == 0.0
    ensures elapsed > 0 ==> 0.0 < dt <= MaxStep
    ensures elapsed > 0 ==> dt <= elapsed as real / NanosPerSecond
    ensures elapsed as real / NanosPerSecond <= MaxStep ==> dt == elapsed as real / NanosPerSecond
    ensures elapsed as real / NanosPerSecond > MaxStep ==> dt == MaxStep
  {
    var seconds := elapsed as real / NanosPerSecond;
    if seconds <= 0.0 then seconds
    else if seconds > MaxStep then MaxStep
    else seconds
  }

  /** The viewport side of the screen pass: the widget's side, at least 1. */
  function ClampViewport(side: int): (r: int)
    ensures r >= 1
    ensures side >= 1 ==> r == side
    ensures side < 1 ==> r == 1
  {
    if side < 1 then 1 else side
  }

  /** C++ `int / 2`, which truncates toward zero. */
  function Half(n: int): (r: int)
    ensures n >= 0 ==> 0 <= r && 2 * r <= n < 2 * r + 2
    ensures n < 0 ==> r <= 0 && 2 * r - 2 < n <= 2 * r
  {
    if n >= 0 then n / 2 else -((-n) / 2)
  }

  // ----- movement ------------------------------------------------------------

  /** The normalized direction of this tick's keyboard step, built from the
      camera direction `dir` as the tick does: W, or else S, adds the forward
      component; D, or else A, adds the sideways one; each addition is
      normalized. */
  function MoveDirection(keys: seq<bool>, dir: Vec3, normalize: Normalizer): Vec3
    requires |keys| == KeyCount
  {
    var forward :=
      if keys[KeyW] then normalize(Add(Zero, dir))
      else if keys[KeyS] then normalize(Add(Zero, Neg(dir)))
      else Zero;
    if keys[KeyD] then normalize(Add(forward, Cross(dir, WorldUp)))
    else if keys[KeyA] then normalize(Add(forward, Cross(Neg(dir), WorldUp)))
    else forward
  }

  /** The position step of a tick: newDir * fMoveVelocity * dt. */
  function MoveStep(keys: seq<bool>, dir: Vec3, normalize: Normalizer, dt: real): Vec3
    requires |keys| == KeyCount
  {
    Scale(Scale(MoveDirection(keys, dir, normalize), MoveVelocity), dt)
  }

  /** While W is held, S makes no difference. */
  lemma ForwardBeatsBackward(keys: seq<bool>, dir: Vec3, normalize: Normalizer, s: bool)
    requires |keys| == KeyCount && keys[KeyW]
    ensures MoveDirection(keys[KeyS := s], dir, normalize) == MoveDirection(keys[KeyS := false], dir, normalize)
  {
  }

  /** While D is held, A makes no difference. */
  lemma RightBeatsLeft(keys: seq<bool>, dir: Vec3, normalize: Normalizer, a: bool)
    requires |keys| == KeyCount && keys[KeyD]
    ensures MoveDirection(keys[KeyA := a], dir, normalize) == MoveDirection(keys[KeyA := false], dir, normalize)
  {
  }

  /** W alone moves along the normalized camera direction, S alone against it. */
  lemma StraightMoves(keys: seq<bool>, dir: Vec3, normalize: Normalizer)
    requires |keys| == KeyCount && !keys[KeyD] && !keys[KeyA]
    ensures keys[KeyW] ==> MoveDirection(keys, dir, normalize) == normalize(dir)
    ensures !keys[KeyW] && keys[KeyS] ==> MoveDirection(keys, dir, normalize) == normalize(Neg(dir))
  {
    assert Add(Zero, dir) == dir;
    assert Add(Zero, Neg(dir)) == Neg(dir);
  }

  /** With none of W, S, D, A held the camera does not move. */
  lemma NoKeysNoStep(keys: seq<bool>, dir: Vec3, normalize: Normalizer, dt: real)
    requires |keys| == KeyCount && !keys[KeyW] && !keys[KeyS] && !keys[KeyD] && !keys[KeyA]
    ensures MoveStep(keys, dir, normalize, dt) == Zero
  {
  }

  /** Because the tick already passes a centre-relative cursor offset and
      Rotate subtracts its previous argument, an offset repeated on consecutive
      ticks turns the camera by nothing. */
  lemma SteadyOffsetIsStill(offset: int)
    ensures LookDelta(true, offset, offset) == 0
  {
  }

  // ----- scene build -----------------------------------------------------------

  /** The point cloud handed to registerConvexHullShape: the vertex positions. */
  function Positions(vertices: seq<Vertex>): seq<Vec3> {
    seq(|vertices|, i requires 0 <= i < |vertices| => vertices[i].position)
  }

  /** The points handed to registerConcaveMesh: the vertex positions moved by `offset`. */
  function Shifted(vertices: seq<Vertex>, offset: Vec3): seq<Vec3> {
    seq(|vertices|, i requires 0 <= i < |vertices| => Add(vertices[i].position, offset))
  }

  /** The calls of CreateConvexMesh: a convex hull shape, then a body of it. */
  function ConvexCalls(vertices: seq<Vertex>, position: Vec3, rotation: Vec3, mass: real, shape: nat): seq<Call> {
    [Call.RegisterConvexHull(Positions(vertices), HullStride), Call.RegisterInstance(mass, position, rotation, shape)]
  }

  /** The calls of CreateConcaveMesh: a triangle mesh over the shifted points
      with the identity index list, then a body of it at the origin. */
  function ConcaveCalls(vertices: seq<Vertex>, offset: Vec3, rotation: Vec3, mass: real, shape: nat): seq<Call> {
    [Call.RegisterConcaveMesh(Shifted(vertices, offset), Run(0, |vertices|)),
     Call.RegisterInstance(mass, Zero, rotation, shape)]
  }

  /** Where the k-th barrel of the grid starts: the loops run x outermost,
      then z, then y, so k = ((x + 5) * 10 + (z + 5)) * 50 + y. */
  function GridPosition(k: nat): Vec3 {
    var x := k / (GridSide * GridLayers) - 5;
    var z := k / GridLayers % GridSide - 5;
    var y := k % GridLayers;
    Vec3(x as real * GridSpacing, 20.0 + y as real * GridSpacing, z as real * GridSpacing)
  }

  /** The calls of the first n barrels, whose shapes are numbered from `shapes`. */
  function GridCalls(vertices: seq<Vertex>, shapes: nat, n: nat): seq<Call> {
    if n == 0 then []
    else GridCalls(vertices, shapes, n - 1) + ConvexCalls(vertices, GridPosition(n - 1), Zero, BarrelMass, shapes + n - 1)
  }

  /** Every grid call registers a shape or a body, two per barrel. */
  lemma {:induction false} GridCallsRegister(vertices: seq<Vertex>, shapes: nat, n: nat)
    ensures |GridCalls(vertices, shapes, n)| == 2 * n
    ensures forall k :: 0 <= k < 2 * n ==> Registers(GridCalls(vertices, shapes, n)[k])
  {
    if n > 0 {
      GridCallsRegister(vertices, shapes, n - 1);
      var prev := GridCalls(vertices, shapes, n - 1);
      var last := ConvexCalls(vertices, GridPosition(n - 1), Zero, BarrelMass, shapes + n - 1);
      assert GridCalls(vertices, shapes, n) == prev + last;
      forall k | 0 <= k < 2 * n
        ensures Registers(GridCalls(vertices, shapes, n)[k])
      {
        if k < 2 * (n - 1) {
          assert GridCalls(vertices, shapes, n)[k] == prev[k];
        } else {
          assert GridCalls(vertices, shapes, n)[k] == last[k - 2 * (n - 1)];
        }
      }
    }
  }

  /** The calls that close the scene build: gravity is set, then the
      registered instances, bodies and bounding boxes are written to the GPU. */
  function FlushCalls(): seq<Call> {
    [SetGravity(Gravity), WriteInstances, WriteBodies, WriteAabbs]
  }

  /** The physics calls of InitScene: the concave scenery, the barrel grid,
      then the flush. */
  function SceneCalls(physicsVertices: seq<Vertex>, barrelVertices: seq<Vertex>, shapes: nat): seq<Call> {
    ConcaveCalls(physicsVertices, Zero, Zero, 0.0, shapes) + GridCalls(barrelVertices, shapes + 1, InstanceCount) +
      FlushCalls()
  }

  /** The scene build registers its 5002 shapes and bodies first and flushes
      them to the GPU last: a call is a registration exactly when it comes
      before the four flush calls, which end the build in source order. */
  lemma SceneFlushesLast(physicsVertices: seq<Vertex>, barrelVertices: seq<Vertex>, shapes: nat, k: nat)
    requires k < |SceneCalls(physicsVertices, barrelVertices, shapes)|
    ensures |SceneCalls(physicsVertices, barrelVertices, shapes)| == 2 + 2 * InstanceCount + 4
    ensures Registers(SceneCalls(physicsVertices, barrelVertices, shapes)[k]) <==> k < 2 + 2 * InstanceCount
    ensures SceneCalls(physicsVertices, barrelVertices, shapes)[2 + 2 * InstanceCount..] == FlushCalls()
  {
    var concave := ConcaveCalls(physicsVertices, Zero, Zero, 0.0, shapes);
    var grid := GridCalls(barrelVertices, shapes + 1, InstanceCount);
    GridCallsRegister(barrelVertices, shapes + 1, InstanceCount);
    var all := SceneCalls(physicsVertices, barrelVertices, shapes);
    assert all == concave + grid + FlushCalls();
    if k < 2 {
      assert all[k] == concave[k];
    } else if k < 2 + 2 * InstanceCount {
      assert all[k] == grid[k - 2];
    } else {
      assert all[k] == FlushCalls()[k - 2 - 2 * InstanceCount];
    }
    assert all[2 + 2 * InstanceCount..] == FlushCalls();
  }

  /** The texture ids of the first n barrels: rand() % numTextures picks a slot. */
  function Rolled(textures: seq<nat>, rolls: seq<nat>, n: nat): (r: seq<nat>)
    requires |textures| > 0 && n <= |rolls|
    ensures |r| == n
  {
    if n == 0 then []
    else Rolled(textures, rolls, n - 1) + [textures[rolls[n - 1] % |textures|]]
  }

  /** Barrel k gets the texture of slot rolls[k] mod numTextures, which is
      therefore one of the textures. */
  lemma {:induction false} RolledAt(textures: seq<nat>, rolls: seq<nat>, n: nat, k: nat)
    requires |textures| > 0 && k < n <= |rolls|
    ensures Rolled(textures, rolls, n)[k] == textures[rolls[k] % |textures|]
    ensures Rolled(textures, rolls, n)[k] in textures
  {
    if k < n - 1 {
      RolledAt(textures, rolls, n - 1, k);
    }
  }

  /** With distinct texture ids, every barrel of the grid is drawn exactly once
      in each pass, since its texture was rolled from the slots. */
  lemma BarrelsDrawnOnce(textures: seq<nat>, rolls: seq<nat>, i: nat)
    requires |textures| > 0 && Distinct(textures) && i < |rolls|
    ensures Occurrences(DrawOrder(textures, Rolled(textures, rolls, |rolls|), |textures|), i) == 1
  {
    RolledAt(textures, rolls, |rolls|, i);
    DrawnExactlyOnce(textures, Rolled(textures, rolls, |rolls|), i);
  }

  /** The barrel the loops reach at (x, z, y) is barrel ((x+5)*10+(z+5))*50+y of GridPosition. */
  lemma GridPositionAt(x: int, z: int, y: int)
    requires -5 <= x < 5 && -5 <= z < 5 && 0 <= y < 50
    ensures ((x + 5) * 10 + (z + 5)) * 50 + y >= 0
    ensures GridPosition(((x + 5) * 10 + (z + 5)) * 50 + y) ==
              Vec3(x as real * GridSpacing, 20.0 + y as real * GridSpacing, z as real * GridSpacing)
  {
    var k := ((x + 5) * 10 + (z + 5)) * 50 + y;
    assert k / 50 == (x + 5) * 10 + (z + 5) && k % 50 == y;
    assert k / 500 == x + 5;
  }

  class MainWindow {
    /** m_bKeys. */
    var keys: array<bool>
    /** m_bMouseButtonDown: whether mouse motion turns the camera. */
    var mouseLook: bool
    /** m_nElapsedTime and m_nCurrentTime: the previous and the latest timer reading. */
    var elapsedTime: nat
    var currentTime: nat
    var dt: real
    var camera: Camera
    /** The texture slots `textures[0..numTextures)`. */
    var textures: seq<nat>
    /** m_listDynamicIds and m_listRigidBodiesTextureId, in lockstep. */
    var dynamicIds: seq<nat>
    var bodyTextures: seq<nat>
    var services: Services

    predicate Valid()
      reads this
    {
      keys.Length == KeyCount && |dynamicIds| == |bodyTextures| &&
      elapsedTime < TimeModulus && currentTime < TimeModulus
    }

    /** The objects and lists an event or a tick leaves in place. */
    twostate predicate Kept()
      reads this
    {
      keys == old(keys) && camera == old(camera) && services == old(services) &&
      textures == old(textures) && dynamicIds == old(dynamicIds) && bodyTextures == old(bodyTextures)
    }

    /** The constructor: the key table of the source is left uninitialised, so
        nothing is promised about its entries; mouse-look starts off. */
    constructor ()
      ensures Valid() && fresh(keys) && fresh(camera) && fresh(services)
      ensures !mouseLook && !camera.looked
      ensures textures == [] && dynamicIds == [] && bodyTextures == []
      ensures services.calls == [] && services.shapes == 0 && services.bodies == 0
    {
      keys := new bool[256];
      mouseLook := false;
      elapsedTime, currentTime := 0, 0;
      dt := 0.0;
      camera := new Camera();
      textures, dynamicIds, bodyTextures := [], [], [];
      services := new Services();
    }

    /** The end of Init: mouse-look on, both timer readings set to the start time. */
    method Start(now: nat)
      requires Valid() && now < TimeModulus
      modifies this
      ensures Valid() && Kept()
      ensures mouseLook && elapsedTime == now && currentTime == now && dt == old(dt)
    {
      mouseLook := true;
      elapsedTime := now;
      currentTime := now;
    }

    method KeyPress(key: int)
      requires Valid()
      modifies this, keys
      ensures Valid() && Kept()
      ensures keys[..] == SetKey(old(keys[..]), key, true)
      ensures mouseLook == (old(mouseLook) && key != KeyEscape)
      ensures elapsedTime == old(elapsedTime) && currentTime == old(currentTime) && dt == old(dt)
    {
      if 0 <= key && key <= 255 {
        keys[key] := true;
      }
      if key == KeyEscape {
        mouseLook := false;
      }
    }

    method KeyRelease(key: int)
      requires Valid()
      modifies keys
      ensures keys[..] == SetKey(old(keys[..]), key, false)
    {
      if 0 <= key && key <= 255 {
        keys[key] := false;
      }
    }

    method MousePress()
      requires Valid()
      modifies this
      ensures Valid() && Kept() && mouseLook
      ensures elapsedTime == old(elapsedTime) && currentTime == old(currentTime) && dt == old(dt)
    {
      mouseLook := true;
    }

    /** Releasing the button changes nothing: mouse-look stays as it was. */
    method MouseRelease()
      requires Valid()
      ensures mouseLook == old(mouseLook)
    {
    }

    // ----- one tick ------------------------------------------------------------

    /** The getDT part of TimerTick: shifts the timer readings, computes dt
        and reports whether the tick goes on. */
    method AdvanceClock(now: nat) returns (goesOn: bool)
      requires Valid() && now < TimeModulus
      modifies this
      ensures Valid() && Kept() && mouseLook == old(mouseLook)
      ensures elapsedTime == old(currentTime) && currentTime == now
      ensures dt == TickStep(Elapsed(old(currentTime), now))
      ensures goesOn <==> Elapsed(old(currentTime), now) > 0
    {
      elapsedTime := currentTime;
      currentTime := now;
      dt := ((currentTime - elapsedTime) % TimeModulus) as real / NanosPerSecond;
      if dt <= 0.0 {
        return false;
      }
      if dt > MaxStep {
        dt := MaxStep;
      }
      goesOn := true;
    }

    /** One texture-batched loop over the dynamic bodies. */
    method DrawInstances(pass: Pass)
      requires |dynamicIds| == |bodyTextures|
      modifies services
      ensures services.calls == old(services.calls) + BatchedPass(pass, textures, dynamicIds, bodyTextures, |textures|)
      ensures services.shapes == old(services.shapes) && services.bodies == old(services.bodies)
    {
      var j := 0;
      while j < |textures|
        invariant j <= |textures|
        invariant services.calls == old(services.calls) + BatchedPass(pass, textures, dynamicIds, bodyTextures, j)
        invariant services.shapes == old(services.shapes) && services.bodies == old(services.bodies)
      {
        services.Issue(SetTexture(pass, textures[j]));
        DrawSlot(pass, textures[j]);
        j := j + 1;
      }
    }

    /** The inner loop of a texture slot: every body whose texture is t, in
        list order, has its transform read and is drawn. */
    method DrawSlot(pass: Pass, t: nat)
      requires |dynamicIds| == |bodyTextures|
      modifies services
      ensures services.calls == old(services.calls) + SlotDraws(pass, t, dynamicIds, bodyTextures, |bodyTextures|)
      ensures services.shapes == old(services.shapes) && services.bodies == old(services.bodies)
    {
      var i := 0;
      while i < |dynamicIds|
        invariant i <= |dynamicIds|
        invariant services.calls == old(services.calls) + SlotDraws(pass, t, dynamicIds, bodyTextures, i)
        invariant services.shapes == old(services.shapes) && services.bodies == old(services.bodies)
      {
        if bodyTextures[i] != t {
          i := i + 1;
          continue;
        }
        services.Issue(ReadTransform(dynamicIds[i]));
        services.Issue(DrawInstance(pass));
        i := i + 1;
      }
    }

    /** One render pass: target and viewport, the scenery, the batched bodies. */
    method RenderPass(pass: Pass, width: int, height: int)
      requires |dynamicIds| == |bodyTextures|
      modifies services
      ensures services.calls == old(services.calls) + PassCalls(pass, width, height, textures, dynamicIds, bodyTextures)
      ensures services.shapes == old(services.shapes) && services.bodies == old(services.bodies)
    {
      services.Issue(BeginPass(pass, width, height));
      services.Issue(DrawScenery(pass));
      DrawInstances(pass);
      services.Issue(EndPass(pass));
    }

    /** Mouse-look and keyboard movement of a tick; returns the camera position
        the passes and the sky use, read before the step is applied. */
    method Steer(cursorX: int, cursorY: int, windowWidth: int, windowHeight: int, normalize: Normalizer, turn: Rotator)
      returns (eye: Vec3)
      requires Valid()
      modifies camera
      ensures eye == old(camera.pos)
      ensures mouseLook ==> camera.looked && camera.lastMouseX == cursorX - Half(windowWidth) &&
                            camera.lastMouseY == cursorY - Half(windowHeight)
      ensures mouseLook ==> camera.dir == Turned(old(camera.dir), old(camera.up),
                              LookDelta(old(camera.looked), old(camera.lastMouseX), cursorX - Half(windowWidth)),
                              LookDelta(old(camera.looked), old(camera.lastMouseY), cursorY - Half(windowHeight)), turn)
      ensures !mouseLook ==> camera.dir == old(camera.dir) && camera.looked == old(camera.looked) &&
                             camera.lastMouseX == old(camera.lastMouseX) && camera.lastMouseY == old(camera.lastMouseY)
      ensures camera.up == old(camera.up) && camera.dt == dt
      ensures camera.pos == Add(old(camera.pos), MoveStep(keys[..], normalize(camera.dir), normalize, dt))
    {
      if mouseLook {
        camera.Rotate(cursorX - Half(windowWidth), cursorY - Half(windowHeight), turn);
      }
      camera.Update(dt);
      eye := camera.GetPos();
      var at := camera.GetAt();
      var dir := normalize(Sub(at, eye));

      var newDir := Zero;
      if keys[KeyW] {
        newDir := normalize(Add(newDir, dir));
      } else if keys[KeyS] {
        newDir := normalize(Add(newDir, Neg(dir)));
      }
      if keys[KeyD] {
        newDir := normalize(Add(newDir, Cross(dir, WorldUp)));
      } else if keys[KeyA] {
        newDir := normalize(Add(newDir, Cross(Neg(dir), WorldUp)));
      }
      var step := Scale(Scale(newDir, MoveVelocity), dt);
      camera.SetPos(Add(camera.GetPos(), step));
    }

    /** TimerTick. A tick whose timer has not advanced only shifts the readings
        and sets dt to 0; any other tick steps the physics, reads the bodies
        back, turns and moves the camera, draws the shadow pass, the screen pass
        and the sky, and swaps buffers. */
    method TimerTick(now: nat, widgetWidth: int, widgetHeight: int, windowWidth: int, windowHeight: int,
                     cursorX: int, cursorY: int, normalize: Normalizer, turn: Rotator)
      requires Valid() && now < TimeModulus
      modifies this, camera, services
      ensures Valid() && Kept() && mouseLook == old(mouseLook) && keys[..] == old(keys[..])
      ensures elapsedTime == old(currentTime) && currentTime == now
      ensures dt == TickStep(Elapsed(old(currentTime), now))
      ensures old(currentTime) == now ==> unchanged(camera) && unchanged(services)
      ensures old(currentTime) != now ==>
                services.calls == old(services.calls) +
                  TickCalls(dt, ClampViewport(widgetWidth), ClampViewport(widgetHeight),
                            textures, dynamicIds, bodyTextures, old(camera.pos))
      ensures services.shapes == old(services.shapes) && services.bodies == old(services.bodies)
      ensures old(currentTime) != now ==>
                camera.dt == dt && camera.up == old(camera.up) &&
                camera.pos == Add(old(camera.pos), MoveStep(keys[..], normalize(camera.dir), normalize, dt))
      ensures old(currentTime) != now && mouseLook ==>
                camera.dir == Turned(old(camera.dir), old(camera.up),
                                     LookDelta(old(camera.looked), old(camera.lastMouseX), cursorX - Half(windowWidth)),
                                     LookDelta(old(camera.looked), old(camera.lastMouseY), cursorY - Half(windowHeight)), turn)
      ensures old(currentTime) != now && mouseLook ==>
                camera.looked && camera.lastMouseX == cursorX - Half(windowWidth) &&
                camera.lastMouseY == cursorY - Half(windowHeight)
      ensures !mouseLook ==> camera.dir == old(camera.dir) && camera.looked == old(camera.looked) &&
                             camera.lastMouseX == old(camera.lastMouseX) && camera.lastMouseY == old(camera.lastMouseY)
    {
      ElapsedZero(currentTime, now);
      var goesOn := AdvanceClock(now);
      if !goesOn {
        return;
      }

      var width := if widgetWidth < 1 then 1 else widgetWidth;
      var height := if widgetHeight < 1 then 1 else widgetHeight;

      ghost var start := services.calls;
      services.Issue(StepSimulation(dt));
      services.Issue(ReadbackBodies);

      var eye := Steer(cursorX, cursorY, windowWidth, windowHeight, normalize, turn);

      ghost var physics := services.calls;
      RenderPass(Shadow, ShadowWidth, ShadowWidth);
      ghost var shadow := services.calls;
      RenderPass(Screen, width, height);
      ghost var screen := services.calls;
      services.Issue(DrawSky(eye));
      services.Issue(SwapBuffers);
      TickCallsJoin(start, physics, shadow, screen, services.calls, dt, width, height, textures, dynamicIds, bodyTextures, eye);
    }

    // ----- scene build ---------------------------------------------------------

    /** The vertex loop of CreateConvexMesh. */
    method ConvexPoints(vertices: seq<Vertex>) returns (points: seq<Vec3>)
      ensures |points| == |vertices|
      ensures forall i :: 0 <= i < |vertices| ==> points[i] == vertices[i].position
    {
      points := [];
      var i := 0;
      while i < |vertices|
        invariant i <= |vertices| && |points| == i
        invariant forall k :: 0 <= k < i ==> points[k] == vertices[k].position
      {
        points := points + [vertices[i].position];
        i := i + 1;
      }
    }

    /** The vertex loop of CreateConcaveMesh: every position moved by `offset`,
        and the index list 0, 1, ..., n - 1. */
    method ConcaveGeometry(vertices: seq<Vertex>, offset: Vec3) returns (points: seq<Vec3>, indices: seq<nat>)
      ensures |points| == |vertices| && |indices| == |vertices|
      ensures forall i :: 0 <= i < |vertices| ==> points[i] == Add(vertices[i].position, offset)
      ensures forall i :: 0 <= i < |vertices| ==> indices[i] == i
    {
      points, indices := [], [];
      var i := 0;
      while i < |vertices|
        invariant i <= |vertices| && |points| == i && |indices| == i
        invariant forall k :: 0 <= k < i ==> points[k] == Add(vertices[k].position, offset)
        invariant forall k :: 0 <= k < i ==> indices[k] == k
      {
        points := points + [Add(vertices[i].position, offset)];
        indices := indices + [i];
        i := i + 1;
      }
    }

    /** CreateConvexMesh: registers the hull of the vertex positions and a body
        of it at `position`; returns the body's index. */
    method CreateConvexMesh(position: Vec3, rotation: Vec3, mass: real, vertices: seq<Vertex>) returns (body: nat)
      modifies services
      ensures body == old(services.bodies) && services.bodies == old(services.bodies) + 1
      ensures services.shapes == old(services.shapes) + 1
      ensures services.calls == old(services.calls) + ConvexCalls(vertices, position, rotation, mass, old(services.shapes))
    {
      var points := ConvexPoints(vertices);
      assert points == Positions(vertices);
      var shape := services.RegisterConvexHull(points, HullStride);
      body := services.RegisterInstance(mass, position, rotation, shape);
    }

    /** CreateConcaveMesh: registers a triangle mesh over the positions moved by
        `offset`, with the identity index list, and a body of it at the origin. */
    method CreateConcaveMesh(offset: Vec3, rotation: Vec3, mass: real, vertices: seq<Vertex>) returns (body: nat)
      modifies services
      ensures body == old(services.bodies) && services.bodies == old(services.bodies) + 1
      ensures services.shapes == old(services.shapes) + 1
      ensures services.calls == old(services.calls) + ConcaveCalls(vertices, offset, rotation, mass, old(services.shapes))
    {
      var points, indices := ConcaveGeometry(vertices, offset);
      assert points == Shifted(vertices, offset);
      assert indices == Run(0, |vertices|);
      var shape := services.RegisterConcaveMesh(points, indices);
      body := services.RegisterInstance(mass, Zero, rotation, shape);
    }

    /** The state after the first `count` barrels of the grid. */
    ghost predicate Placed(ids: seq<nat>, texs: seq<nat>, calls: seq<Call>, shapes: nat, bodies: nat,
                           vertices: seq<Vertex>, rolls: seq<nat>, count: nat)
      reads this, services
      requires |textures| > 0 && count <= |rolls|
    {
      dynamicIds == ids + Run(bodies, count) &&
      bodyTextures == texs + Rolled(textures, rolls, count) &&
      services.calls == calls + GridCalls(vertices, shapes, count) &&
      services.shapes == shapes + count && services.bodies == bodies + count
    }

    /** One pass of the innermost loop: barrel `count` at `position`. */
    method PlaceBarrel(position: Vec3, vertices: seq<Vertex>, rolls: seq<nat>, count: nat,
                       ghost ids: seq<nat>, ghost texs: seq<nat>, ghost calls: seq<Call>, ghost shapes: nat, ghost bodies: nat)
      requires |textures| > 0 && count < |rolls| && position == GridPosition(count)
      requires Placed(ids, texs, calls, shapes, bodies, vertices, rolls, count)
      modifies this, services
      ensures textures == old(textures) && services == old(services) && keys == old(keys) && camera == old(camera)
      ensures mouseLook == old(mouseLook) && elapsedTime == old(elapsedTime) && currentTime == old(currentTime) && dt == old(dt)
      ensures Placed(ids, texs, calls, shapes, bodies, vertices, rolls, count + 1)
    {
      var id := CreateConvexMesh(position, Zero, BarrelMass, vertices);
      dynamicIds := dynamicIds + [id];
      bodyTextures := bodyTextures + [textures[rolls[count] % |textures|]];
      assert Run(bodies, count + 1) == Run(bodies, count) + [bodies + count];
    }

    /** The barrel loops of InitScene: a 10 x 10 x 50 grid of convex bodies of
        the barrel model, each given the texture of a randomly rolled slot.
        `rolls` are the successive values of rand(). */
    method BuildInstances(vertices: seq<Vertex>, rolls: seq<nat>)
      requires Valid() && |textures| > 0 && |rolls| == InstanceCount
      modifies this, services
      ensures Valid()
      ensures textures == old(textures) && services == old(services) && keys == old(keys) && camera == old(camera)
      ensures mouseLook == old(mouseLook) && elapsedTime == old(elapsedTime) && currentTime == old(currentTime) && dt == old(dt)
      ensures dynamicIds == old(dynamicIds) + Run(old(services.bodies), InstanceCount)
      ensures bodyTextures == old(bodyTextures) + Rolled(textures, rolls, InstanceCount)
      ensures services.calls == old(services.calls) + GridCalls(vertices, old(services.shapes), InstanceCount)
      ensures services.shapes == old(services.shapes) + InstanceCount
      ensures services.bodies == old(services.bodies) + InstanceCount
    {
      ghost var ids, texs, calls := dynamicIds, bodyTextures, services.calls;
      ghost var shapes, bodies := services.shapes, services.bodies;
      var count := 0;
      var x := -5;
      while x < 5
        invariant -5 <= x <= 5 && count == (x + 5) * 500
        invariant textures == old(textures) && services == old(services) && keys == old(keys) && camera == old(camera)
        invariant mouseLook == old(mouseLook) && elapsedTime == old(elapsedTime) && currentTime == old(currentTime) && dt == old(dt)
        invariant Placed(ids, texs, calls, shapes, bodies, vertices, rolls, count)
      {
        var z := -5;
        while z < 5
          invariant -5 <= z <= 5 && count == (x + 5) * 500 + (z + 5) * 50
          invariant textures == old(textures) && services == old(services) && keys == old(keys) && camera == old(camera)
          invariant mouseLook == old(mouseLook) && elapsedTime == old(elapsedTime) && currentTime == old(currentTime) && dt == old(dt)
          invariant Placed(ids, texs, calls, shapes, bodies, vertices, rolls, count)
        {
          var y := 0;
          while y < 50
            invariant 0 <= y <= 50 && count == ((x + 5) * 10 + (z + 5)) * 50 + y
            invariant textures == old(textures) && services == old(services) && keys == old(keys) && camera == old(camera)
            invariant mouseLook == old(mouseLook) && elapsedTime == old(elapsedTime) && currentTime == old(currentTime) && dt == old(dt)
            invariant Placed(ids, texs, calls, shapes, bodies, vertices, rolls, count)
          {
            GridPositionAt(x, z, y);
            var position := Vec3(x as real * GridSpacing, 20.0 + y as real * GridSpacing, z as real * GridSpacing);
            PlaceBarrel(position, vertices, rolls, count, ids, texs, calls, shapes, bodies);
            count := count + 1;
            y := y + 1;
          }
          z := z + 1;
        }
        x := x + 1;
      }
    }

    /** The bookkeeping of InitScene once the models are loaded: the concave
        physics mesh of the scenery at the origin, the texture slots, the barrel
        grid, and the camera at (20, 3, 20) looking at the origin.
        `physicsVertices` and `barrelVertices` are what GetVertices returns for
        the loaded physics and barrel models. */
    method InitScene(textureIds: seq<nat>, physicsVertices: seq<Vertex>, barrelVertices: seq<Vertex>,
                     rolls: seq<nat>, normalize: Normalizer)
      requires Valid() && |textureIds| > 0 && |rolls| == InstanceCount
      modifies this, services, camera
      ensures Valid() && textures == textureIds
      ensures keys == old(keys) && camera == old(camera) && services == old(services) && mouseLook == old(mouseLook)
      ensures services.calls == old(services.calls) + SceneCalls(physicsVertices, barrelVertices, old(services.shapes))
      ensures dynamicIds == old(dynamicIds) + Run(old(services.bodies) + 1, InstanceCount)
      ensures bodyTextures == old(bodyTextures) + Rolled(textureIds, rolls, InstanceCount)
      ensures camera.pos == CameraEye && camera.dir == normalize(Sub(Zero, CameraEye)) && camera.up == WorldUp
      ensures camera.dt == old(camera.dt) && camera.looked == old(camera.looked) &&
              camera.lastMouseX == old(camera.lastMouseX) && camera.lastMouseY == old(camera.lastMouseY)
      ensures services.shapes == old(services.shapes) + 1 + InstanceCount
      ensures services.bodies == old(services.bodies) + 1 + InstanceCount
      ensures elapsedTime == old(elapsedTime) && currentTime == old(currentTime) && dt == old(dt)
    {
      var ground := CreateConcaveMesh(Zero, Zero, 0.0, physicsVertices);
      textures := textureIds;
      BuildInstances(barrelVertices, rolls);
      ghost var built := services.calls;
      services.Issue(SetGravity(Gravity));
      services.Issue(WriteInstances);
      services.Issue(WriteBodies);
      services.Issue(WriteAabbs);
      assert services.calls == built + FlushCalls();
      camera.Init(Vec3(20.0, 3.0, 20.0), Vec3(0.0, 0.0, 0.0), normalize);
    }
  }

  /** MainWindow::Init up to the first timer tick: a new window builds the
      scene, turns mouse-look on and reads the timer at `start`; the first tick
      after that, at a later reading, does not turn the camera whatever the
      cursor position, because Rotate's statics are still uninitialised. */
  method FirstTickAfterStartUp(textureIds: seq<nat>, physicsVertices: seq<Vertex>, barrelVertices: seq<Vertex>,
                               rolls: seq<nat>, normalize: Normalizer, turn: Rotator, start: nat, now: nat,
                               widgetWidth: int, widgetHeight: int, windowWidth: int, windowHeight: int,
                               cursorX: int, cursorY: int)
    returns (w: MainWindow)
    requires |textureIds| > 0 && |rolls| == InstanceCount
    requires start < TimeModulus && now < TimeModulus && start != now
    ensures w.Valid() && w.mouseLook
    ensures w.camera.dir == Turned(normalize(Sub(Zero, CameraEye)), WorldUp, 0, 0, turn)
    ensures w.camera.looked && w.camera.lastMouseX == cursorX - Half(windowWidth) &&
            w.camera.lastMouseY == cursorY - Half(windowHeight)
    ensures w.services.shapes == 1 + InstanceCount && w.services.bodies == 1 + InstanceCount
    ensures |w.dynamicIds| == |w.bodyTextures| == InstanceCount
  {
    w := new MainWindow();
    w.InitScene(textureIds, physicsVertices, barrelVertices, rolls, normalize);
    w.Start(start);
    w.TimerTick(now, widgetWidth, widgetHeight, windowWidth, windowHeight, cursorX, cursorY, normalize, turn);
  }
}
