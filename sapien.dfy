/**
 * The simulator side, as read-only snapshots: SAPIEN entities, PhysX rigid
 * components with their collision shapes, articulations and the scene.
 * Nothing here changes; the live scene is represented by the snapshot a
 * caller passes in at each call.
 */
module Sapien {
  import opened Results
  import opened Geometry

  /** An `Entity`: its declared name, its per-scene id and its current world pose. */
  datatype EntityInfo = EntityInfo(name: string, perSceneId: nat, pose: Pose)

  /** A mesh face: three vertex indices. */
  datatype Triangle = Triangle(a: nat, b: nat, c: nat)

  /**
   * A PhysX collision shape with its local pose in the owning body's frame.
   * `UnknownShape` stands for any other class of shape object.
   */
  datatype PhysxShape =
    | BoxShape(halfSize: Vec3, localPose: Pose)
    | CapsuleShape(radius: real, halfLength: real, localPose: Pose)
    | ConvexMeshShape(vertices: seq<Vec3>, triangles: seq<Triangle>, scale: Vec3, localPose: Pose)
    | CylinderShape(radius: real, halfLength: real, localPose: Pose)
    | PlaneShape(localPose: Pose)
    | SphereShape(radius: real, localPose: Pose)
    | TriangleMeshShape(vertices: seq<Vec3>, triangles: seq<Triangle>, localPose: Pose)
    | UnknownShape(typeName: string, localPose: Pose)

  /**
   * The solid a primitive PhysX shape occupies, for a point `l` in the
   * shape's own frame: capsules and cylinders run along the x-axis, and a
   * plane bounds the half-space of non-positive x.
   */
  ghost predicate InShapeLocal(s: PhysxShape, l: Vec3)
  {
    match s
    case BoxShape(h, _) => Abs(l.x) <= h.x && Abs(l.y) <= h.y && Abs(l.z) <= h.z
    case CapsuleShape(r, hl, _) => Sq(l.x - Clamp(l.x, -hl, hl)) + Sq(l.y) + Sq(l.z) <= Sq(r)
    case CylinderShape(r, hl, _) => Abs(l.x) <= hl && Sq(l.y) + Sq(l.z) <= Sq(r)
    case SphereShape(r, _) => Sq(l.x) + Sq(l.y) + Sq(l.z) <= Sq(r)
    case PlaneShape(_) => l.x <= 0.0
    case ConvexMeshShape(_, _, _, _) => false
    case TriangleMeshShape(_, _, _) => false
    case UnknownShape(_, _) => false
  }

  /** Whether point `x` of the owning body's frame lies in the shape at its local pose. */
  ghost predicate InShape(s: PhysxShape, x: Vec3)
  {
    InShapeLocal(s, ToLocal(s.localPose, x))
  }

  predicate IsPrimitive(s: PhysxShape)
  {
    s.BoxShape? || s.CapsuleShape? || s.CylinderShape? || s.SphereShape? || s.PlaneShape?
  }

  /** `PhysxArticulationLinkComponent`, or any other `PhysxRigidBaseComponent`. */
  datatype ComponentKind = ArticulationLink | RigidBody

  /** A `PhysxRigidBaseComponent`: its kind, its own name, its entity and its shapes. */
  datatype RigidComponent =
    RigidComponent(kind: ComponentKind, name: string, entity: EntityInfo, collisionShapes: seq<PhysxShape>)

  /** An actor of the scene: an entity and the rigid component found on it, if any. */
  datatype Actor = Actor(entity: EntityInfo, rigid: Option<RigidComponent>)

  /** A row `[lower, upper]` of a joint's limit array. */
  datatype JointLimit = JointLimit(lower: real, upper: real)

  /**
   * A `PhysxArticulation`: its name, the entity of its root link, its link
   * components, the names of its active joints, and its current root pose
   * and joint positions. `jointTypes` and `jointLimits` are what the
   * kinematic model built from the exported URDF reports for it (one limit
   * array per joint).
   */
  datatype SimArticulation = SimArticulation(
    name: string,
    root: EntityInfo,
    links: seq<RigidComponent>,
    activeJointNames: seq<string>,
    rootPose: Pose,
    qpos: seq<real>,
    jointTypes: seq<string>,
    jointLimits: seq<seq<JointLimit>>)

  /** A snapshot of a `Scene`: its articulations, its actors and the gravity of its physics system. */
  datatype Scene = Scene(articulations: seq<SimArticulation>, actors: seq<Actor>, gravity: Vec3)

  /**
   * What Python code may pass where "a SAPIEN object" is expected. Any other
   * object is known by its type's name and by its `name` attribute, which it
   * may lack.
   */
  datatype SapienObject =
    | ArticulationObj(articulation: SimArticulation)
    | EntityObj(entity: EntityInfo)
    | OtherObj(typeName: string, nameAttr: Option<string>)
}
