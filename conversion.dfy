/**
 * `SapienPlanningWorld.convert_physx_component`: turns the collision shapes
 * of one PhysX rigid component into an FCL object, shape by shape.
 */
module Conversion {
  import opened Results
  import opened Geometry
  import opened Sapien
  import opened Fcl
  import opened Naming

  /** One converted shape: its FCL geometry and its pose relative to the owning body. */
  datatype ConvertedShape = ConvertedShape(geometry: CollisionGeometry, pose: Pose)

  /** The two parallel lists the conversion builds. */
  datatype ShapeLists = ShapeLists(shapes: seq<CollisionGeometry>, poses: seq<Pose>)

  /** Convex-mesh vertices scaled per axis by the shape's scale. */
  function ScaleVertices(vertices: seq<Vec3>, scale: Vec3): (r: seq<Vec3>)
    ensures |r| == |vertices|
    ensures forall i :: 0 <= i < |r| ==> r[i] == PerAxis(vertices[i], scale)
  {
    seq(|vertices|, i requires 0 <= i < |vertices| => PerAxis(vertices[i], scale))
  }

  /**
   * Scaling loses nothing when no axis is scaled by zero: scaling back by
   * the reciprocal of each factor gives the mesh's own vertices again.
   */
  lemma ScaleVerticesUndone(vertices: seq<Vec3>, scale: Vec3)
    requires scale.x != 0.0 && scale.y != 0.0 && scale.z != 0.0
    ensures ScaleVertices(ScaleVertices(vertices, scale), Vec3(1.0 / scale.x, 1.0 / scale.y, 1.0 / scale.z)) == vertices
  {
    var inv := Vec3(1.0 / scale.x, 1.0 / scale.y, 1.0 / scale.z);
    var back := ScaleVertices(ScaleVertices(vertices, scale), inv);
    forall i | 0 <= i < |vertices| ensures back[i] == vertices[i] {
      var v := vertices[i];
      assert v.x * scale.x * (1.0 / scale.x) == v.x;
      assert v.y * scale.y * (1.0 / scale.y) == v.y;
      assert v.z * scale.z * (1.0 / scale.z) == v.z;
    }
  }

  /**
   * The per-shape rule, one case per shape class: the geometry, and the
   * local pose as the conversion leaves it. Only a shape of an unknown
   * class fails, with a TypeError naming that class.
   */
  function ConvertShape(s: PhysxShape): (r: Result<ConvertedShape>)
    ensures r.Failure? <==> s.UnknownShape?
    ensures r.Failure? ==> r.error == TypeError(s.typeName)
  {
    match s
    case BoxShape(h, p) => Success(ConvertedShape(Box(ScaleBy(2.0, h)), p))
    case CapsuleShape(r, hl, p) => Success(ConvertedShape(Capsule(r, hl * 2.0), Compose(p, RotY90)))
    case ConvexMeshShape(v, t, sc, p) => Success(ConvertedShape(Convex(ScaleVertices(v, sc), t), p))
    case CylinderShape(r, hl, p) => Success(ConvertedShape(Cylinder(r, hl * 2.0), Compose(p, RotY90)))
    case PlaneShape(p) =>
      var n := Col0(p.r);
      Success(ConvertedShape(Halfspace(n, Dot(n, p.p)), Identity))
    case SphereShape(r, p) => Success(ConvertedShape(Sphere(r), p))
    case TriangleMeshShape(v, t, p) => Success(ConvertedShape(BVHModel(v, t), p))
    case UnknownShape(name, _) => Failure(TypeError(name))
  }

  /**
   * A converted primitive occupies the same solid as the PhysX shape it came
   * from: a point of the owning body's frame is inside one exactly when it
   * is inside the other. For capsules and cylinders this rests on the
   * quarter turn about y; for planes on the normal being the pose's x-axis.
   */
  lemma {:induction false} ConvertShapeKeepsSolid(s: PhysxShape, x: Vec3)
    requires IsPrimitive(s)
    ensures ConvertShape(s).Success?
    ensures var c := ConvertShape(s).value; InShape(s, x) <==> InGeometry(c.geometry, c.pose, x)
  {
    var c := ConvertShape(s).value;
    var l := ToLocal(s.localPose, x);
    match s
    case BoxShape(h, p) =>
    case SphereShape(r, p) =>
    case CapsuleShape(r, hl, p) =>
      ToLocalTurned(p, x);
      var l' := ToLocal(c.pose, x);
      assert l' == Vec3(-l.z, l.y, l.x);
      assert Sq(l'.x) == Sq(l.z);
    case CylinderShape(r, hl, p) =>
      ToLocalTurned(p, x);
      var l' := ToLocal(c.pose, x);
      assert l' == Vec3(-l.z, l.y, l.x);
      assert Sq(l'.x) == Sq(l.z);
    case PlaneShape(p) =>
      ToLocalIdentity(x);
      var n := Col0(p.r);
      assert l.x == Dot(n, Sub(x, p.p));
      assert Dot(n, Sub(x, p.p)) == Dot(n, x) - Dot(n, p.p);
  }

  /**
   * The height axis of a converted capsule or cylinder (the z-axis of its
   * stored pose) is the PhysX height axis (the x-axis of its local pose),
   * and its full length is twice the PhysX half-length.
   */
  lemma RoundShapeAxisAligned(s: PhysxShape, t: real)
    requires s.CapsuleShape? || s.CylinderShape?
    ensures var c := ConvertShape(s).value;
      && Apply(c.pose, Vec3(0.0, 0.0, t)) == Apply(s.localPose, Vec3(t, 0.0, 0.0))
      && (c.geometry.Capsule? || c.geometry.Cylinder?)
      && c.geometry.radius == s.radius
      && c.geometry.lz / 2.0 == s.halfLength
  {
    ZAxisOfTurnedFrameIsXAxis(s.localPose, t);
  }

  /**
   * A plane whose pose has the world z-axis as its x-axis and sits at height
   * d becomes the half-space with normal (0, 0, 1) and offset d, stored at
   * the identity pose.
   */
  lemma PlaneOnZAxis(d: real)
    ensures var p := Pose(Vec3(0.0, 0.0, d), Mat3(Vec3(0.0, 0.0, -1.0), Vec3(0.0, 1.0, 0.0), Vec3(1.0, 0.0, 0.0)));
      ConvertShape(PlaneShape(p)) == Success(ConvertedShape(Halfspace(Vec3(0.0, 0.0, 1.0), d), Identity))
  {
  }

  /**
   * Meshes keep their faces and their local pose. A convex mesh becomes a
   * convex geometry whose vertices are the mesh's, one for one, each scaled
   * per axis by the shape's scale; a triangle mesh becomes a BVH model over
   * its own vertices and triangles.
   */
  lemma ConvertShapeMeshes(s: PhysxShape)
    requires s.ConvexMeshShape? || s.TriangleMeshShape?
    ensures ConvertShape(s).Success?
    ensures var c := ConvertShape(s).value;
      && c.pose == s.localPose
      && (s.ConvexMeshShape? ==>
            && c.geometry.Convex?
            && |c.geometry.vertices| == |s.vertices|
            && (forall i :: 0 <= i < |s.vertices| ==> c.geometry.vertices[i] == PerAxis(s.vertices[i], s.scale))
            && c.geometry.faces == s.triangles)
      && (s.TriangleMeshShape? ==> c.geometry == BVHModel(s.vertices, s.triangles))
  {
  }

  /**
   * The two lists built by the loop over `comp.collision_shapes`, for a
   * prefix of the shapes; the first shape of an unknown class stops it.
   */
  function ConvertShapes(shapes: seq<PhysxShape>): Result<ShapeLists>
  {
    if shapes == [] then Success(ShapeLists([], []))
    else match ConvertShapes(shapes[..|shapes| - 1])
      case Failure(e) => Failure(e)
      case Success(lists) =>
        match ConvertShape(shapes[|shapes| - 1])
        case Failure(e) => Failure(e)
        case Success(c) => Success(ShapeLists(lists.shapes + [c.geometry], lists.poses + [c.pose]))
  }

  /** Index of the first shape of an unknown class. */
  predicate FirstUnknownAt(shapes: seq<PhysxShape>, k: int)
  {
    0 <= k < |shapes| && shapes[k].UnknownShape? && forall j :: 0 <= j < k ==> !shapes[j].UnknownShape?
  }

  /**
   * Converting a shape list succeeds exactly when no shape is of an unknown
   * class. Then both lists have one entry per shape, in input order, each
   * the per-shape rule's; otherwise the error is the TypeError of the first
   * unknown shape. No shape is dropped.
   */
  lemma {:induction false} ConvertShapesCorrect(shapes: seq<PhysxShape>)
    ensures ConvertShapes(shapes).Success? <==> forall i :: 0 <= i < |shapes| ==> !shapes[i].UnknownShape?
    ensures ConvertShapes(shapes).Success? ==>
      var lists := ConvertShapes(shapes).value;
      && |lists.shapes| == |shapes| && |lists.poses| == |shapes|
      && forall i :: 0 <= i < |shapes| ==>
           ConvertShape(shapes[i]) == Success(ConvertedShape(lists.shapes[i], lists.poses[i]))
    ensures ConvertShapes(shapes).Failure? ==>
      exists k :: FirstUnknownAt(shapes, k) && ConvertShapes(shapes).error == TypeError(shapes[k].typeName)
    decreases |shapes|
  {
    if shapes != [] {
      var init, last := shapes[..|shapes| - 1], shapes[|shapes| - 1];
      ConvertShapesCorrect(init);
      if ConvertShapes(init).Failure? {
        var k :| FirstUnknownAt(init, k) && ConvertShapes(init).error == TypeError(init[k].typeName);
        assert FirstUnknownAt(shapes, k);
      } else if last.UnknownShape? {
        assert FirstUnknownAt(shapes, |shapes| - 1);
      } else {
        var lists := ConvertShapes(shapes).value;
        forall i | 0 <= i < |shapes|
          ensures ConvertShape(shapes[i]) == Success(ConvertedShape(lists.shapes[i], lists.poses[i]))
        {
          if i < |shapes| - 1 {
            assert shapes[i] == init[i];
          }
        }
      }
    }
  }

  /** Once a prefix of the shapes fails, the whole list fails with the same error. */
  lemma {:induction false} FailureOfPrefixIsFinal(shapes: seq<PhysxShape>, n: nat)
    requires n <= |shapes|
    requires ConvertShapes(shapes[..n]).Failure?
    ensures ConvertShapes(shapes) == ConvertShapes(shapes[..n])
    decreases |shapes| - n
  {
    if n < |shapes| {
      var init := shapes[..|shapes| - 1];
      assert init[..n] == shapes[..n];
      FailureOfPrefixIsFinal(init, n);
    } else {
      assert shapes[..n] == shapes;
    }
  }

  /**
   * The entry name: a link component keeps its plain name, any other
   * component takes the unique name of its entity.
   */
  function EntryName(comp: RigidComponent): string
  {
    if comp.kind.ArticulationLink? then comp.name else EntityName(comp.entity)
  }

  /** What `convert_physx_component` returns for a component: no entry, an entry, or the TypeError. */
  function ConvertComponent(comp: RigidComponent): Result<Option<FclObject>>
  {
    match ConvertShapes(comp.collisionShapes)
    case Failure(e) => Failure(e)
    case Success(lists) =>
      if |lists.shapes| == 0 then Success(None)
      else Success(Some(FclObject(EntryName(comp), comp.entity.pose, lists.shapes, lists.poses)))
  }

  /**
   * "No entry" exactly for a component without collision shapes; otherwise
   * either the TypeError of an unknown shape or an entry named after the
   * component, at its entity's pose, with one geometry and one pose per
   * shape in input order.
   */
  lemma ConvertComponentCorrect(comp: RigidComponent)
    ensures ConvertComponent(comp) == Success(None) <==> |comp.collisionShapes| == 0
    ensures ConvertComponent(comp).Failure? <==> exists i :: 0 <= i < |comp.collisionShapes| && comp.collisionShapes[i].UnknownShape?
    ensures ConvertComponent(comp).Failure? ==> ConvertComponent(comp).error.TypeError?
    ensures ConvertComponent(comp).Success? && ConvertComponent(comp).value.Some? ==>
      var obj := ConvertComponent(comp).value.value;
      && obj.name == (if comp.kind.ArticulationLink? then comp.name else EntityName(comp.entity))
      && obj.pose == comp.entity.pose
      && |obj.shapes| == |comp.collisionShapes| == |obj.shapePoses|
      && forall i :: 0 <= i < |obj.shapes| ==>
           ConvertShape(comp.collisionShapes[i]) == Success(ConvertedShape(obj.shapes[i], obj.shapePoses[i]))
  {
    ConvertShapesCorrect(comp.collisionShapes);
  }

  /**
   * `convert_physx_component`, as the loop the source runs: the local pose
   * is appended first and then, for capsules, cylinders and planes,
   * overwritten in place.
   */
  method ConvertPhysxComponent(comp: RigidComponent) returns (r: Result<Option<FclObject>>)
    ensures r == ConvertComponent(comp)
  {
    var shapes: seq<CollisionGeometry> := [];
    var shapePoses: seq<Pose> := [];
    var i := 0;
    while i < |comp.collisionShapes|
      invariant 0 <= i <= |comp.collisionShapes|
      invariant ConvertShapes(comp.collisionShapes[..i]) == Success(ShapeLists(shapes, shapePoses))
    {
      var shape := comp.collisionShapes[i];
      ghost var before := shapePoses;
      shapePoses := shapePoses + [shape.localPose];
      var geom: CollisionGeometry;
      match shape {
        case BoxShape(h, _) =>
          geom := Box(ScaleBy(2.0, h));
        case CapsuleShape(radius, halfLength, _) =>
          geom := Capsule(radius, halfLength * 2.0);
          shapePoses := shapePoses[|shapePoses| - 1 := Compose(shapePoses[|shapePoses| - 1], RotY90)];
        case ConvexMeshShape(vertices, triangles, scale, _) =>
          geom := Convex(ScaleVertices(vertices, scale), triangles);
        case CylinderShape(radius, halfLength, _) =>
          geom := Cylinder(radius, halfLength * 2.0);
          shapePoses := shapePoses[|shapePoses| - 1 := Compose(shapePoses[|shapePoses| - 1], RotY90)];
        case PlaneShape(_) =>
          var last := shapePoses[|shapePoses| - 1];
          var n := Col0(last.r);
          var d := Dot(n, last.p);
          geom := Halfspace(n, d);
          shapePoses := shapePoses[|shapePoses| - 1 := Identity];
        case SphereShape(radius, _) =>
          geom := Sphere(radius);
        case TriangleMeshShape(vertices, triangles, _) =>
          geom := BVHModel(vertices, triangles);
        case UnknownShape(typeName, _) =>
          assert comp.collisionShapes[..i + 1][..i] == comp.collisionShapes[..i];
          FailureOfPrefixIsFinal(comp.collisionShapes, i + 1);
          return Failure(TypeError(typeName));
      }
      assert ConvertShape(shape) == Success(ConvertedShape(geom, shapePoses[|shapePoses| - 1]));
      assert shapePoses == before + [shapePoses[|shapePoses| - 1]];
      shapes := shapes + [geom];
      assert comp.collisionShapes[..i + 1][..i] == comp.collisionShapes[..i];
      i := i + 1;
    }
    assert comp.collisionShapes[..i] == comp.collisionShapes;
    if |shapes| == 0 {
      return Success(None);
    }
    var name := if comp.kind.ArticulationLink? then comp.name else EntityName(comp.entity);
    r := Success(Some(FclObject(name, comp.entity.pose, shapes, shapePoses)));
  }
}
