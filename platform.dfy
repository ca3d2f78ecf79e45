/** The foreign services MainWindow drives: the Bullet3 GPU physics engine and
    OpenGL. Neither is modelled inside; a Platform object records, in order,
    the calls made on it and hands out the indices the physics engine returns
    for registered shapes and bodies (consecutive, from the number registered
    before). Each recorded call stands for the group of library calls named in
    its comment. */
module Platform {
  import opened Vectors

  /** The two render passes of a tick. */
  datatype Pass = Shadow | Screen

  datatype Call =
      /** b3GpuRigidBodyPipeline::stepSimulation(dt). */
    | StepSimulation(dt: real)
      /** b3GpuNarrowPhase::readbackAllBodiesToCpu(). */
    | ReadbackBodies
      /** b3GpuNarrowPhase::getObjectTransformFromCpu for one body. */
    | ReadTransform(body: nat)
      /** Binding the shadow render target (shadow pass only), the clear colour,
          glViewport(0, 0, width, height), clearing, and beginning the pass's
          shader with its matrices, light direction and depth texture set. */
    | BeginPass(pass: Pass, width: int, height: int)
      /** Begin, Draw and End of the static scenery model with the pass's shader,
          then b3GpuNarrowPhase::getBodiesCpu() and Begin of the dynamic model
          with the pass's shader, ahead of the batched loops. */
    | DrawScenery(pass: Pass)
      /** SetTexture("g_Texture", texture, 0) on the pass's shader. */
    | SetTexture(pass: Pass, texture: nat)
      /** SetMatrix("matWorld", ...) from the transform read last, then Draw of
          the dynamic model with the pass's shader. */
    | DrawInstance(pass: Pass)
      /** End of the dynamic model after the batched loops; in the screen pass
          DisableTexture(1) on its shader; then ending the pass's shader and, in
          the shadow pass, unbinding the shadow render target. */
    | EndPass(pass: Pass)
      /** SkyBox::Draw around the camera position. */
    | DrawSky(eye: Vec3)
      /** SwapBuffers(hDC). */
    | SwapBuffers
      /** b3GpuNarrowPhase::registerConvexHullShape of a point cloud with the
          stride in bytes the caller passes, unit scaling. */
    | RegisterConvexHull(points: seq<Vec3>, strideBytes: nat)
      /** b3GpuNarrowPhase::registerConcaveMesh of points and triangle indices. */
    | RegisterConcaveMesh(points: seq<Vec3>, indices: seq<nat>)
      /** b3GpuRigidBodyPipeline::registerPhysicsInstance of a body of the given
          mass, position, Euler rotation and collision shape. */
    | RegisterInstance(mass: real, position: Vec3, rotation: Vec3, shape: nat)
      /** b3GpuRigidBodyPipeline::setGravity. */
    | SetGravity(gravity: Vec3)
      /** b3GpuRigidBodyPipeline::writeAllInstancesToGpu(). */
    | WriteInstances
      /** b3GpuNarrowPhase::writeAllBodiesToGpu(). */
    | WriteBodies
      /** The broadphase's writeAabbsToGpu(). */
    | WriteAabbs

  /** Whether a call registers a collision shape or a rigid body. */
  predicate Registers(c: Call) {
    c.RegisterConvexHull? || c.RegisterConcaveMesh? || c.RegisterInstance?
  }

  /** Whether a call belongs to render pass p (physics calls belong to none). */
  predicate InPass(c: Call, p: Pass) {
    match c
    case BeginPass(q, _, _) => q == p
    case DrawScenery(q) => q == p
    case SetTexture(q, _) => q == p
    case DrawInstance(q) => q == p
    case EndPass(q) => q == p
    case _ => false
  }

  class Services {
    var calls: seq<Call>
    /** Number of collision shapes registered so far. */
    var shapes: nat
    /** Number of rigid bodies registered so far. */
    var bodies: nat

    constructor ()
      ensures calls == [] && shapes == 0 && bodies == 0
    {
      calls, shapes, bodies := [], 0, 0;
    }

    method Issue(c: Call)
      modifies this
      ensures calls == old(calls) + [c]
      ensures shapes == old(shapes) && bodies == old(bodies)
    {
      calls := calls + [c];
    }

    method RegisterConvexHull(points: seq<Vec3>, strideBytes: nat) returns (shape: nat)
      modifies this
      ensures shape == old(shapes) && shapes == old(shapes) + 1 && bodies == old(bodies)
      ensures calls == old(calls) + [Call.RegisterConvexHull(points, strideBytes)]
    {
      calls := calls + [Call.RegisterConvexHull(points, strideBytes)];
      shape := shapes;
      shapes := shapes + 1;
    }

    method RegisterConcaveMesh(points: seq<Vec3>, indices: seq<nat>) returns (shape: nat)
      modifies this
      ensures shape == old(shapes) && shapes == old(shapes) + 1 && bodies == old(bodies)
      ensures calls == old(calls) + [Call.RegisterConcaveMesh(points, indices)]
    {
      calls := calls + [Call.RegisterConcaveMesh(points, indices)];
      shape := shapes;
      shapes := shapes + 1;
    }

    method RegisterInstance(mass: real, position: Vec3, rotation: Vec3, shape: nat) returns (body: nat)
      modifies this
      ensures body == old(bodies) && bodies == old(bodies) + 1 && shapes == old(shapes)
      ensures calls == old(calls) + [Call.RegisterInstance(mass, position, rotation, shape)]
    {
      calls := calls + [Call.RegisterInstance(mass, position, rotation, shape)];
      body := bodies;
      bodies := bodies + 1;
    }
  }
}
