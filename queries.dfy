/**
 * Pairwise queries between SAPIEN objects: `_get_collision_obj`,
 * `check_collision_between` and `distance_between`. They read the world and
 * change nothing, so they are functions of a `WorldState`.
 */
module Queries {
  import opened Results
  import opened Sapien
  import opened Fcl
  import opened Naming
  import opened PlanningWorld

  /** Whether an object resolves to something the world holds. */
  predicate Registered(s: WorldState, obj: SapienObject)
  {
    match obj
    case ArticulationObj(art) => ArticulationName(art) in s.articulations
    case EntityObj(e) => EntityName(e) in s.objects
    case OtherObj(_, _) => false
  }

  /**
   * The error `_get_collision_obj` raises for an object it cannot resolve.
   * Its message reads the object's `name`, so an object without one raises
   * an AttributeError before the RuntimeError can be built.
   */
  function NotFound(obj: SapienObject): Error
  {
    match obj
    case ArticulationObj(art) => RuntimeError(art.name)
    case EntityObj(e) => RuntimeError(e.name)
    case OtherObj(t, None) => AttributeError(t)
    case OtherObj(_, Some(n)) => RuntimeError(n)
  }

  /**
   * `_get_collision_obj`: an articulation resolves to its model, an entity
   * to its registered entry, and anything unregistered is a RuntimeError.
   */
  function GetCollisionObj(s: WorldState, obj: SapienObject): (r: Result<CollisionTarget>)
    ensures r.Success? <==> Registered(s, obj)
    ensures r.Failure? ==> r.error == NotFound(obj)
    ensures r.Failure? ==> (r.error.AttributeError? <==> obj.OtherObj? && obj.nameAttr.None?)
    ensures r.Success? ==> (r.value.ModelTarget? <==> obj.ArticulationObj?)
    ensures r.Success? && obj.ArticulationObj? ==> r.value.model == s.articulations[ArticulationName(obj.articulation)]
    ensures r.Success? && obj.EntityObj? ==> r.value.entry == s.objects[EntityName(obj.entity)]
  {
    match obj
    case ArticulationObj(art) =>
      var name := ArticulationName(art);
      if name in s.articulations then Success(ModelTarget(s.articulations[name])) else Failure(NotFound(obj))
    case EntityObj(e) =>
      var name := EntityName(e);
      if name in s.objects then Success(ObjectTarget(s.objects[name])) else Failure(NotFound(obj))
    case OtherObj(_, _) => Failure(NotFound(obj))
  }

  /** Whether the matrix lets the narrow phase run for a pair: no entry, or NEVER. */
  predicate Checked(acm: Acm, a: string, b: string)
  {
    var tag := GetAllowedCollision(acm, a, b);
    tag.None? || tag.value == Never
  }

  /** `check_collision_between`. */
  function CheckCollisionBetween(s: WorldState, a: SapienObject, b: SapienObject, acm: Acm, backend: Backend)
    : (r: Result<seq<WorldCollisionResult>>)
    ensures r.Failure? <==> !Registered(s, a) || !Registered(s, b)
    ensures r.Failure? ==> r.error == NotFound(if Registered(s, a) then b else a)
  {
    match GetCollisionObj(s, a)
    case Failure(e) => Failure(e)
    case Success(ta) =>
      match GetCollisionObj(s, b)
      case Failure(e) => Failure(e)
      case Success(tb) =>
        if a.ArticulationObj? then Success(backend.modelCollide(ta.model, tb, acm))
        else if b.ArticulationObj? then Success(backend.modelCollide(tb.model, ta, acm))
        else
          var oa, ob := ta.entry, tb.entry;
          if Checked(acm, oa.name, ob.name) then
            var res := backend.collide(oa, ob);
            if res.isCollision then Success([WorldCollisionResult(res, "object_object", oa.name, ob.name, oa.name, ob.name)])
            else Success([])
          else Success([])
  }

  /** What `distance_between` returns: the distance alone, or the whole record. */
  datatype DistanceAnswer = Scalar(distance: real) | Full(result: WorldDistanceResult)

  /** `distance_between`. */
  function DistanceBetween(s: WorldState, a: SapienObject, b: SapienObject, acm: Acm, distanceOnly: bool, backend: Backend)
    : (r: Result<DistanceAnswer>)
    ensures r.Failure? <==> !Registered(s, a) || !Registered(s, b)
    ensures r.Failure? ==> r.error == NotFound(if Registered(s, a) then b else a)
    ensures r.Success? ==> (r.value.Scalar? <==> distanceOnly)
  {
    match GetCollisionObj(s, a)
    case Failure(e) => Failure(e)
    case Success(ta) =>
      match GetCollisionObj(s, b)
      case Failure(e) => Failure(e)
      case Success(tb) =>
        var ret :=
          if a.ArticulationObj? then backend.modelDistance(ta.model, tb, acm)
          else if b.ArticulationObj? then backend.modelDistance(tb.model, ta, acm)
          else
            var oa, ob := ta.entry, tb.entry;
            if Checked(acm, oa.name, ob.name) then
              var res := backend.distance(oa, ob);
              WorldDistanceResult(Some(res), res.minDistance, "object_object", oa.name, ob.name, oa.name, ob.name)
            else backend.defaultDistance;
        Success(if distanceOnly then Scalar(ret.minDistance) else Full(ret))
  }

  /**
   * An articulation argument is always the one whose model answers: the
   * first when it is one, otherwise the second, with the other side as
   * the target, for both collision and distance.
   */
  lemma ArticulationAnswers(s: WorldState, a: SapienObject, b: SapienObject, acm: Acm, backend: Backend)
    requires Registered(s, a) && Registered(s, b)
    requires a.ArticulationObj? || b.ArticulationObj?
    ensures var (m, t) := if a.ArticulationObj?
                          then (s.articulations[ArticulationName(a.articulation)], GetCollisionObj(s, b).value)
                          else (s.articulations[ArticulationName(b.articulation)], GetCollisionObj(s, a).value);
      && CheckCollisionBetween(s, a, b, acm, backend) == Success(backend.modelCollide(m, t, acm))
      && DistanceBetween(s, a, b, acm, false, backend) == Success(Full(backend.modelDistance(m, t, acm)))
  {
  }

  /**
   * Two registered entities collide in the answer exactly when the matrix
   * lets the pair be checked and the narrow phase finds contact; the answer
   * then is one record naming both objects, in argument order.
   */
  lemma ObjectPairCollision(s: WorldState, a: EntityInfo, b: EntityInfo, acm: Acm, backend: Backend)
    requires ValidState(s)
    requires EntityName(a) in s.objects && EntityName(b) in s.objects
    ensures var na, nb := EntityName(a), EntityName(b);
      var r := CheckCollisionBetween(s, EntityObj(a), EntityObj(b), acm, backend);
      var res := backend.collide(s.objects[na], s.objects[nb]);
      && r.Success?
      && (r.value != [] <==> Checked(acm, na, nb) && res.isCollision)
      && (r.value != [] ==> r.value == [WorldCollisionResult(res, "object_object", na, nb, na, nb)])
  {
  }

  /**
   * Two registered entities are at the narrow phase's distance when the
   * matrix lets the pair be checked, and at the default record's distance
   * otherwise.
   */
  lemma ObjectPairDistance(s: WorldState, a: EntityInfo, b: EntityInfo, acm: Acm, backend: Backend)
    requires ValidState(s)
    requires EntityName(a) in s.objects && EntityName(b) in s.objects
    ensures var na, nb := EntityName(a), EntityName(b);
      var r := DistanceBetween(s, EntityObj(a), EntityObj(b), acm, true, backend);
      r == Success(Scalar(if Checked(acm, na, nb) then backend.distance(s.objects[na], s.objects[nb]).minDistance
                          else backend.defaultDistance.minDistance))
  {
  }

  /** The matrix a caller gets by default is empty, so every object pair reaches the narrow phase. */
  lemma DefaultMatrixChecksEveryPair(a: string, b: string)
    ensures Checked(EmptyAcm, a, b)
  {
  }

  /**
   * For two entities, swapping the arguments does not change whether a
   * collision is reported, and the one record then names the two objects
   * in swapped order, provided the matrix is symmetric and the narrow
   * phase's verdict does not depend on the order of its arguments.
   */
  lemma ObjectPairSymmetric(s: WorldState, a: EntityInfo, b: EntityInfo, acm: Acm, backend: Backend)
    requires ValidState(s)
    requires EntityName(a) in s.objects && EntityName(b) in s.objects
    requires Symmetric(acm)
    requires backend.collide(s.objects[EntityName(a)], s.objects[EntityName(b)]).isCollision
          == backend.collide(s.objects[EntityName(b)], s.objects[EntityName(a)]).isCollision
    ensures var na, nb := EntityName(a), EntityName(b);
      var ab := CheckCollisionBetween(s, EntityObj(a), EntityObj(b), acm, backend);
      var ba := CheckCollisionBetween(s, EntityObj(b), EntityObj(a), acm, backend);
      && ab.Success? && ba.Success?
      && (ab.value != [] <==> ba.value != [])
      && (ab.value != [] ==>
            && |ab.value| == |ba.value| == 1
            && ab.value[0].objectName1 == ba.value[0].objectName2 == na
            && ab.value[0].objectName2 == ba.value[0].objectName1 == nb)
  {
    ObjectPairCollision(s, a, b, acm, backend);
    ObjectPairCollision(s, b, a, acm, backend);
    assert GetAllowedCollision(acm, EntityName(a), EntityName(b)) == GetAllowedCollision(acm, EntityName(b), EntityName(a));
  }

  /** Asking for the distance alone gives the `min_distance` of the record the full query returns. */
  lemma DistanceOnlyIsMinDistance(s: WorldState, a: SapienObject, b: SapienObject, acm: Acm, backend: Backend)
    ensures var full := DistanceBetween(s, a, b, acm, false, backend);
      DistanceBetween(s, a, b, acm, true, backend) ==
        match full
        case Success(ans) => Success(Scalar(ans.result.minDistance))
        case Failure(e) => Failure(e)
  {
  }

  /**
   * After `set_allowed_collision` on two entities, checking the pair (in
   * either order) against the world's matrix reports nothing when the pair
   * was allowed, and the narrow phase's verdict when it was disallowed.
   */
  lemma AllowedPairReportsNothing(s: WorldState, a: EntityInfo, b: EntityInfo, allowed: bool, backend: Backend)
    requires ValidState(s)
    requires EntityName(a) in s.objects && EntityName(b) in s.objects
    ensures var na, nb := EntityName(a), EntityName(b);
      var t := s.(acm := SetEntry(s.acm, na, nb, allowed));
      var ab := CheckCollisionBetween(t, EntityObj(a), EntityObj(b), t.acm, backend);
      var ba := CheckCollisionBetween(t, EntityObj(b), EntityObj(a), t.acm, backend);
      && ab.Success? && ba.Success?
      && (ab.value != [] <==> !allowed && backend.collide(s.objects[na], s.objects[nb]).isCollision)
      && (ba.value != [] <==> !allowed && backend.collide(s.objects[nb], s.objects[na]).isCollision)
  {
  }
}
