/**
 * The planning side's collision vocabulary: FCL geometries, the named
 * `FCLObject` bundles the planning world stores, query results and the
 * allowed-collision matrix.
 */
module Fcl {
  import opened Results
  import opened Geometry
  import opened Sapien

  /** An FCL collision geometry (wrapped one-to-one in a `CollisionObject`). */
  datatype CollisionGeometry =
    | Box(side: Vec3)
    | Capsule(radius: real, lz: real)
    | Convex(vertices: seq<Vec3>, faces: seq<Triangle>)
    | Cylinder(radius: real, lz: real)
    | Halfspace(n: Vec3, d: real)
    | Sphere(radius: real)
    | BVHModel(vertices: seq<Vec3>, faces: seq<Triangle>)

  /**
   * `FCLObject(name, pose, shapes, shape_poses)`: the world pose of the
   * owning body and its shapes, each with a pose relative to that body.
   */
  datatype FclObject = FclObject(name: string, pose: Pose, shapes: seq<CollisionGeometry>, shapePoses: seq<Pose>)

  datatype AllowedCollision = Never | Always | Conditional

  /** The allowed-collision matrix: an entry per ordered pair of names. */
  datatype Acm = Acm(entries: map<(string, string), AllowedCollision>)

  const EmptyAcm: Acm := Acm(map[])

  /** `get_allowed_collision`: the entry for the pair, if any. */
  function GetAllowedCollision(acm: Acm, a: string, b: string): Option<AllowedCollision>
  {
    if (a, b) in acm.entries then Some(acm.entries[(a, b)]) else None
  }

  /** `set_entry`: both orders of the pair get ALWAYS when allowed, NEVER otherwise. */
  function SetEntry(acm: Acm, a: string, b: string, allowed: bool): Acm
  {
    var tag := if allowed then Always else Never;
    Acm(acm.entries[(a, b) := tag][(b, a) := tag])
  }

  ghost predicate Symmetric(acm: Acm)
  {
    forall a, b :: GetAllowedCollision(acm, a, b) == GetAllowedCollision(acm, b, a)
  }

  /** Setting an entry answers for the pair in both orders and keeps the matrix symmetric. */
  lemma SetEntrySymmetric(acm: Acm, a: string, b: string, allowed: bool)
    requires Symmetric(acm)
    ensures var acm' := SetEntry(acm, a, b, allowed);
      && GetAllowedCollision(acm', a, b) == Some(if allowed then Always else Never)
      && GetAllowedCollision(acm', b, a) == Some(if allowed then Always else Never)
      && Symmetric(acm')
  {
    var acm' := SetEntry(acm, a, b, allowed);
    forall x, y ensures GetAllowedCollision(acm', x, y) == GetAllowedCollision(acm', y, x) {
      assert GetAllowedCollision(acm, x, y) == GetAllowedCollision(acm, y, x);
    }
  }

  /** The narrow phase's answer for one pair; only whether they collide is modelled. */
  datatype CollisionResult = CollisionResult(isCollision: bool)

  datatype DistanceResult = DistanceResult(minDistance: real)

  /** `WorldCollisionResult(res, collision_type, object_name1, object_name2, link_name1, link_name2)`. */
  datatype WorldCollisionResult = WorldCollisionResult(
    res: CollisionResult, collisionType: string,
    objectName1: string, objectName2: string, linkName1: string, linkName2: string)

  /** `WorldDistanceResult(res, min_distance, distance_type, object_name1, ..., link_name2)`. */
  datatype WorldDistanceResult = WorldDistanceResult(
    res: Option<DistanceResult>, minDistance: real, distanceType: string,
    objectName1: string, objectName2: string, linkName1: string, linkName2: string)

  /** FCL solids for a point `l` in the geometry's own frame (meshes are not given a solid). */
  ghost predicate InGeometryLocal(g: CollisionGeometry, l: Vec3)
  {
    match g
    case Box(side) => Abs(l.x) <= side.x / 2.0 && Abs(l.y) <= side.y / 2.0 && Abs(l.z) <= side.z / 2.0
    case Capsule(r, lz) => Sq(l.z - Clamp(l.z, -lz / 2.0, lz / 2.0)) + Sq(l.x) + Sq(l.y) <= Sq(r)
    case Cylinder(r, lz) => Abs(l.z) <= lz / 2.0 && Sq(l.x) + Sq(l.y) <= Sq(r)
    case Sphere(r) => Sq(l.x) + Sq(l.y) + Sq(l.z) <= Sq(r)
    case Halfspace(n, d) => Dot(n, l) <= d
    case Convex(_, _) => false
    case BVHModel(_, _) => false
  }

  /** Whether point `x` of the body's frame lies in geometry `g` placed at `at`. */
  ghost predicate InGeometry(g: CollisionGeometry, at: Pose, x: Vec3)
  {
    InGeometryLocal(g, ToLocal(at, x))
  }
}
