/**
 * What one `update_from_simulation` pass promises about the world: when it
 * fails and with which exception, that it never adds or removes entries
 * nor touches shapes, where every entry ends up, and that a second pass
 * over the same snapshot changes nothing but the warnings.
 */
module SyncProperties {
  import opened Results
  import opened Geometry
  import opened Sapien
  import opened Fcl
  import opened Naming
  import opened PlanningWorld

  /** The last articulation of `arts` with unique name `n`: the one whose values a pass leaves behind. */
  function LastArticulationNamed(arts: seq<SimArticulation>, n: string): (r: Option<SimArticulation>)
    ensures r.Some? ==> ArticulationName(r.value) == n
    decreases |arts|
  {
    if arts == [] then None
    else
      var rest := LastArticulationNamed(arts[1..], n);
      if rest.Some? then rest
      else if ArticulationName(arts[0]) == n then Some(arts[0])
      else None
  }

  /** The last actor of `actors` with unique name `n`. */
  function LastActorNamed(actors: seq<Actor>, n: string): (r: Option<Actor>)
    ensures r.Some? ==> EntityName(r.value.entity) == n
    decreases |actors|
  {
    if actors == [] then None
    else
      var rest := LastActorNamed(actors[1..], n);
      if rest.Some? then rest
      else if EntityName(actors[0].entity) == n then Some(actors[0])
      else None
  }

  /** An actor the world knows neither as attached nor as an object. */
  predicate Unknown(s: WorldState, a: Actor)
  {
    EntityName(a.entity) !in s.attached && EntityName(a.entity) !in s.objects
  }

  /** An unknown actor without a rigid component: reading its shapes fails. */
  predicate Stuck(s: WorldState, a: Actor)
  {
    Unknown(s, a) && a.rigid.None?
  }

  /** An unknown actor with collision shapes: it draws a warning. */
  predicate Stray(s: WorldState, a: Actor)
  {
    Unknown(s, a) && a.rigid.Some? && |a.rigid.value.collisionShapes| > 0
  }

  /** The warnings a pass over `actors` adds, in scene order. */
  function StrayWarnings(s: WorldState, actors: seq<Actor>): seq<Diagnostic>
    decreases |actors|
  {
    if actors == [] then []
    else (if Stray(s, actors[0]) then [EntityNotInWorld(actors[0].entity.name)] else []) + StrayWarnings(s, actors[1..])
  }

  /** The articulation models after a successful pass: each takes the pose and joint positions of its scene articulation. */
  function SyncedArticulations(models: map<string, ArticulatedModel>, arts: seq<SimArticulation>): map<string, ArticulatedModel>
  {
    map n | n in models ::
      match LastArticulationNamed(arts, n)
      case None => models[n]
      case Some(a) => models[n].(basePose := a.rootPose, qpos := a.qpos)
  }

  /** Registered objects after a successful pass: those not attached take their entity's pose. */
  function SyncedObjects(s: WorldState, actors: seq<Actor>): map<string, FclObject>
  {
    map n | n in s.objects ::
      if n !in s.attached && LastActorNamed(actors, n).Some?
      then MovedObject(n, s.objects[n], LastActorNamed(actors, n).value.entity.pose)
      else s.objects[n]
  }

  /** Attached objects after a successful pass: those with an entity in the scene follow their links. */
  function SyncedAttached(s: WorldState, actors: seq<Actor>, updateAttached: bool, backend: Backend): map<string, AttachedBody>
    requires ValidState(s)
  {
    map n | n in s.attached ::
      if LastActorNamed(actors, n).Some?
      then SyncBody(s.articulations, s.attached[n], LastActorNamed(actors, n).value.entity.pose, updateAttached, backend)
      else s.attached[n]
  }

  /**
   * The world after a successful pass over `actors`, entry by entry:
   * attached objects follow their links, other registered objects take
   * their entity's pose, everything else stays, and the warnings grow by
   * the stray actors.
   */
  function SyncedActors(s: WorldState, actors: seq<Actor>, updateAttached: bool, backend: Backend): WorldState
    requires ValidState(s)
  {
    s.(objects := SyncedObjects(s, actors),
       attached := SyncedAttached(s, actors, updateAttached, backend),
       warnings := s.warnings + StrayWarnings(s, actors))
  }

  /** The world after a successful `update_from_simulation`. */
  function Synced(s: WorldState, scene: Scene, updateAttached: bool, backend: Backend): WorldState
    requires ValidState(s)
  {
    var a := s.(articulations := SyncedArticulations(s.articulations, scene.articulations));
    assert ValidState(a);
    SyncedActors(a, scene.actors, updateAttached, backend)
  }

  /**
   * Two worlds with the same entries and the same shapes on them: names,
   * shapes and shape poses of objects, and everything of an attached body
   * except its poses.
   */
  ghost predicate ShapesKept(s: WorldState, t: WorldState)
  {
    && t.articulations.Keys == s.articulations.Keys
    && t.objects.Keys == s.objects.Keys
    && t.attached.Keys == s.attached.Keys
    && t.planned == s.planned && t.acm == s.acm
    && (forall n :: n in s.objects ==>
          t.objects[n].name == s.objects[n].name
          && t.objects[n].shapes == s.objects[n].shapes
          && t.objects[n].shapePoses == s.objects[n].shapePoses)
    && (forall n :: n in s.attached ==>
          t.attached[n].name == s.attached[n].name
          && t.attached[n].articulationName == s.attached[n].articulationName
          && t.attached[n].linkId == s.attached[n].linkId
          && t.attached[n].touchLinks == s.attached[n].touchLinks
          && t.attached[n].entry.name == s.attached[n].entry.name
          && t.attached[n].entry.shapes == s.attached[n].entry.shapes
          && t.attached[n].entry.shapePoses == s.attached[n].entry.shapePoses)
  }

  // ----- Articulations -----

  lemma {:induction false} SyncArticulationsFailsIff(s: WorldState, arts: seq<SimArticulation>)
    ensures var st := SyncArticulations(s, arts);
      && (st.error.None? <==> forall k :: 0 <= k < |arts| ==> ArticulationName(arts[k]) in s.articulations)
      && (forall k :: 0 <= k < |arts| && ArticulationName(arts[k]) !in s.articulations
            && (forall j :: 0 <= j < k ==> ArticulationName(arts[j]) in s.articulations)
            ==> st.error == Some(RuntimeError(arts[k].name)))
      && st.state.articulations.Keys == s.articulations.Keys
    decreases |arts|
  {
    if arts != [] {
      var st := SyncArticulation(s, arts[0]);
      if st.error.None? {
        SyncArticulationsFailsIff(st.state, arts[1..]);
        assert forall k :: 1 <= k < |arts| ==> arts[1..][k - 1] == arts[k];
        forall k | 0 <= k < |arts| && ArticulationName(arts[k]) !in s.articulations
                   && (forall j :: 0 <= j < k ==> ArticulationName(arts[j]) in s.articulations)
          ensures SyncArticulations(s, arts).error == Some(RuntimeError(arts[k].name))
        {
          assert k >= 1;
          assert forall j :: 0 <= j < k - 1 ==> arts[1..][j] == arts[j + 1];
        }
      }
    }
  }

  lemma {:induction false} SyncArticulationsPointwise(s: WorldState, arts: seq<SimArticulation>)
    requires SyncArticulations(s, arts).error.None?
    ensures SyncArticulations(s, arts).state == s.(articulations := SyncedArticulations(s.articulations, arts))
    decreases |arts|
  {
    if arts == [] {
      assert SyncedArticulations(s.articulations, arts) == s.articulations;
    } else {
      var s1 := SyncArticulation(s, arts[0]).state;
      SyncArticulationsPointwise(s1, arts[1..]);
      var lhs := SyncedArticulations(s1.articulations, arts[1..]);
      var rhs := SyncedArticulations(s.articulations, arts);
      assert s1.articulations.Keys == s.articulations.Keys;
      forall n | n in s.articulations ensures lhs[n] == rhs[n] {
        var r := LastArticulationNamed(arts[1..], n);
        if r.Some? {
          assert LastArticulationNamed(arts, n) == r;
        } else if n == ArticulationName(arts[0]) {
          assert LastArticulationNamed(arts, n) == Some(arts[0]);
          assert lhs[n] == s1.articulations[n];
        } else {
          assert LastArticulationNamed(arts, n) == None;
          assert lhs[n] == s1.articulations[n] == s.articulations[n];
        }
      }
      assert lhs == rhs;
    }
  }

  // ----- Actors -----

  /** Stuck actors are judged by which names are registered, which the actor pass never changes. */
  lemma StuckByKeys(s: WorldState, t: WorldState)
    requires s.attached.Keys == t.attached.Keys && s.objects.Keys == t.objects.Keys
    ensures forall a :: Stuck(t, a) <==> Stuck(s, a)
  {
  }

  lemma {:induction false} SyncActorsFailsIff(s: WorldState, actors: seq<Actor>, updateAttached: bool, backend: Backend)
    requires ValidState(s)
    ensures var st := SyncActors(s, actors, updateAttached, backend);
      && (st.error.None? <==> forall k :: 0 <= k < |actors| ==> !Stuck(s, actors[k]))
      && (forall k :: 0 <= k < |actors| && Stuck(s, actors[k]) && (forall j :: 0 <= j < k ==> !Stuck(s, actors[j]))
            ==> st.error == Some(AttributeError(actors[k].entity.name)))
    decreases |actors|
  {
    if actors != [] {
      var st := SyncActor(s, actors[0], updateAttached, backend);
      if st.error.None? {
        var rest := actors[1..];
        SyncActorsFailsIff(st.state, rest, updateAttached, backend);
        StuckByKeys(s, st.state);
        assert forall k :: 1 <= k < |actors| ==> rest[k - 1] == actors[k];
        forall k | 0 <= k < |actors| && Stuck(s, actors[k]) && (forall j :: 0 <= j < k ==> !Stuck(s, actors[j]))
          ensures SyncActors(s, actors, updateAttached, backend).error == Some(AttributeError(actors[k].entity.name))
        {
          assert k >= 1;
          assert Stuck(st.state, rest[k - 1]);
          assert forall j :: 0 <= j < k - 1 ==> !Stuck(st.state, rest[j]);
        }
      } else {
        assert Stuck(s, actors[0]);
      }
    }
  }

  lemma StrayWarningsByKeys(s: WorldState, t: WorldState, actors: seq<Actor>)
    requires s.attached.Keys == t.attached.Keys && s.objects.Keys == t.objects.Keys
    ensures StrayWarnings(s, actors) == StrayWarnings(t, actors)
  {
    assert forall a :: Stray(s, a) <==> Stray(t, a);
  }

  /** A body synchronised twice ends as if synchronised once, with the later entity pose. */
  lemma SyncBodyTwice(models: map<string, ArticulatedModel>, body: AttachedBody, p1: Pose, p2: Pose,
                      updateAttached: bool, backend: Backend)
    requires body.articulationName in models
    ensures SyncBody(models, SyncBody(models, body, p1, updateAttached, backend), p2, updateAttached, backend)
         == SyncBody(models, body, p2, updateAttached, backend)
  {
  }

  /** What one successful actor step does, map by map. */
  lemma SyncActorEffect(s: WorldState, a: Actor, updateAttached: bool, backend: Backend)
    requires ValidState(s)
    requires SyncActor(s, a, updateAttached, backend).error.None?
    ensures var s1 := SyncActor(s, a, updateAttached, backend).state;
      var n := EntityName(a.entity);
      && s1.articulations == s.articulations
      && s1.objects == (if n !in s.attached && n in s.objects then s.objects[n := MovedObject(n, s.objects[n], a.entity.pose)] else s.objects)
      && s1.attached == (if n in s.attached then s.attached[n := SyncBody(s.articulations, s.attached[n], a.entity.pose, updateAttached, backend)] else s.attached)
      && s1.warnings == s.warnings + (if Stray(s, a) then [EntityNotInWorld(a.entity.name)] else [])
  {
  }

  lemma LastActorNamedCons(actors: seq<Actor>, n: string)
    requires actors != []
    ensures LastActorNamed(actors, n) ==
      if LastActorNamed(actors[1..], n).Some? then LastActorNamed(actors[1..], n)
      else if EntityName(actors[0].entity) == n then Some(actors[0]) else None
  {
  }

  /** One actor then the rest gives the same objects as the rest alone from the state after that actor. */
  lemma SyncedObjectsStep(s: WorldState, actors: seq<Actor>, updateAttached: bool, backend: Backend)
    requires ValidState(s) && actors != []
    requires SyncActor(s, actors[0], updateAttached, backend).error.None?
    ensures SyncedObjects(SyncActor(s, actors[0], updateAttached, backend).state, actors[1..]) == SyncedObjects(s, actors)
  {
    var s1 := SyncActor(s, actors[0], updateAttached, backend).state;
    SyncActorEffect(s, actors[0], updateAttached, backend);
    var lhs, rhs := SyncedObjects(s1, actors[1..]), SyncedObjects(s, actors);
    forall n | n in s.objects ensures lhs[n] == rhs[n] {
      LastActorNamedCons(actors, n);
    }
  }

  lemma SyncedAttachedStep(s: WorldState, actors: seq<Actor>, updateAttached: bool, backend: Backend)
    requires ValidState(s) && actors != []
    requires SyncActor(s, actors[0], updateAttached, backend).error.None?
    ensures var s1 := SyncActor(s, actors[0], updateAttached, backend).state;
      SyncedAttached(s1, actors[1..], updateAttached, backend) == SyncedAttached(s, actors, updateAttached, backend)
  {
    var a0, rest := actors[0], actors[1..];
    var s1 := SyncActor(s, a0, updateAttached, backend).state;
    SyncActorEffect(s, a0, updateAttached, backend);
    var lhs, rhs := SyncedAttached(s1, rest, updateAttached, backend), SyncedAttached(s, actors, updateAttached, backend);
    forall n | n in s.attached ensures lhs[n] == rhs[n] {
      LastActorNamedCons(actors, n);
      if LastActorNamed(rest, n).Some? && EntityName(a0.entity) == n {
        SyncBodyTwice(s.articulations, s.attached[n], a0.entity.pose, LastActorNamed(rest, n).value.entity.pose,
                      updateAttached, backend);
      }
    }
  }

  lemma StrayWarningsStep(s: WorldState, actors: seq<Actor>, updateAttached: bool, backend: Backend)
    requires ValidState(s) && actors != []
    requires SyncActor(s, actors[0], updateAttached, backend).error.None?
    ensures var s1 := SyncActor(s, actors[0], updateAttached, backend).state;
      s1.warnings + StrayWarnings(s1, actors[1..]) == s.warnings + StrayWarnings(s, actors)
  {
    var s1 := SyncActor(s, actors[0], updateAttached, backend).state;
    SyncActorEffect(s, actors[0], updateAttached, backend);
    StrayWarningsByKeys(s, s1, actors[1..]);
    var head := if Stray(s, actors[0]) then [EntityNotInWorld(actors[0].entity.name)] else [];
    var tail := StrayWarnings(s, actors[1..]);
    calc {
      s1.warnings + StrayWarnings(s1, actors[1..]);
      (s.warnings + head) + tail;
      { AppendAssociative(s.warnings, head, tail); }
      s.warnings + (head + tail);
    }
  }

  lemma AppendAssociative<T>(a: seq<T>, b: seq<T>, c: seq<T>)
    ensures (a + b) + c == a + (b + c)
  {
  }

  lemma {:induction false} SyncActorsPointwise(s: WorldState, actors: seq<Actor>, updateAttached: bool, backend: Backend)
    requires ValidState(s)
    requires SyncActors(s, actors, updateAttached, backend).error.None?
    ensures SyncActors(s, actors, updateAttached, backend).state == SyncedActors(s, actors, updateAttached, backend)
    decreases |actors|
  {
    if actors == [] {
      assert SyncedObjects(s, actors) == s.objects;
      assert SyncedAttached(s, actors, updateAttached, backend) == s.attached;
    } else {
      var s1 := SyncActor(s, actors[0], updateAttached, backend).state;
      SyncActorsPointwise(s1, actors[1..], updateAttached, backend);
      SyncedObjectsStep(s, actors, updateAttached, backend);
      SyncedAttachedStep(s, actors, updateAttached, backend);
      StrayWarningsStep(s, actors, updateAttached, backend);
    }
  }

  lemma ShapesKeptTransitive(s: WorldState, t: WorldState, u: WorldState)
    requires ShapesKept(s, t) && ShapesKept(t, u)
    ensures ShapesKept(s, u)
  {
  }

  lemma SyncActorKeepsShapes(s: WorldState, a: Actor, updateAttached: bool, backend: Backend)
    requires ValidState(s)
    ensures ShapesKept(s, SyncActor(s, a, updateAttached, backend).state)
  {
    var t := SyncActor(s, a, updateAttached, backend).state;
    var n := EntityName(a.entity);
    if n in s.attached {
      assert t.objects == s.objects;
      assert t.attached == s.attached[n := SyncBody(s.articulations, s.attached[n], a.entity.pose, updateAttached, backend)];
    } else if n in s.objects {
      assert t.attached == s.attached;
      assert t.objects == s.objects[n := MovedObject(n, s.objects[n], a.entity.pose)];
    } else {
      assert t.objects == s.objects && t.attached == s.attached;
    }
  }

  lemma {:induction false} SyncActorsKeepShapes(s: WorldState, actors: seq<Actor>, updateAttached: bool, backend: Backend)
    requires ValidState(s)
    ensures ShapesKept(s, SyncActors(s, actors, updateAttached, backend).state)
    decreases |actors|
  {
    var st := if actors == [] then Step(s, None) else SyncActor(s, actors[0], updateAttached, backend);
    if actors == [] {
    } else if st.error.Some? {
      SyncActorKeepsShapes(s, actors[0], updateAttached, backend);
    } else {
      SyncActorKeepsShapes(s, actors[0], updateAttached, backend);
      SyncActorsKeepShapes(st.state, actors[1..], updateAttached, backend);
      ShapesKeptTransitive(s, st.state, SyncActors(st.state, actors[1..], updateAttached, backend).state);
    }
  }

  // ----- The whole pass -----

  /**
   * A pass fails exactly when the scene has an articulation the world does
   * not know (a RuntimeError naming the first one) or, failing that, an
   * unknown actor without a rigid component (an AttributeError naming the
   * first one).
   */
  lemma UpdateFailsIff(s: WorldState, scene: Scene, updateAttached: bool, backend: Backend)
    requires ValidState(s)
    ensures var st := Update(s, scene, updateAttached, backend);
      && (st.error.None? <==>
            (forall k :: 0 <= k < |scene.articulations| ==> ArticulationName(scene.articulations[k]) in s.articulations)
            && (forall k :: 0 <= k < |scene.actors| ==> !Stuck(s, scene.actors[k])))
      && (forall k :: 0 <= k < |scene.articulations| && ArticulationName(scene.articulations[k]) !in s.articulations
            && (forall j :: 0 <= j < k ==> ArticulationName(scene.articulations[j]) in s.articulations)
            ==> st.error == Some(RuntimeError(scene.articulations[k].name)))
  {
    var a := SyncArticulations(s, scene.articulations);
    SyncArticulationsFailsIff(s, scene.articulations);
    SyncArticulationsKeepsShape(s, scene.articulations);
    if a.error.None? {
      SyncActorsFailsIff(a.state, scene.actors, updateAttached, backend);
      assert forall x :: Stuck(a.state, x) <==> Stuck(s, x);
    }
  }

  /**
   * A pass never adds or removes an entry, never changes which
   * articulations are planned or the collision matrix, and never touches
   * the shapes of an object or an attached body, even when it fails part
   * way.
   */
  lemma UpdateKeepsShapes(s: WorldState, scene: Scene, updateAttached: bool, backend: Backend)
    requires ValidState(s)
    ensures ShapesKept(s, Update(s, scene, updateAttached, backend).state)
  {
    SyncArticulationsKeepsShape(s, scene.articulations);
    var a := SyncArticulations(s, scene.articulations);
    assert ShapesKept(s, a.state);
    if a.error.None? {
      SyncActorsKeepShapes(a.state, scene.actors, updateAttached, backend);
      ShapesKeptTransitive(s, a.state, SyncActors(a.state, scene.actors, updateAttached, backend).state);
    }
  }

  /** A successful pass leaves every entry where `Synced` says. */
  lemma UpdatePointwise(s: WorldState, scene: Scene, updateAttached: bool, backend: Backend)
    requires ValidState(s)
    requires Update(s, scene, updateAttached, backend).error.None?
    ensures Update(s, scene, updateAttached, backend).state == Synced(s, scene, updateAttached, backend)
  {
    SyncArticulationsKeepsShape(s, scene.articulations);
    SyncArticulationsPointwise(s, scene.articulations);
    var a := SyncArticulations(s, scene.articulations);
    SyncActorsPointwise(a.state, scene.actors, updateAttached, backend);
  }

  /**
   * After a successful pass, every registered object that is not attached
   * sits at the world pose of the scene's entity with its name, and one
   * with no such entity stays where it was.
   */
  lemma UpdateMovesObjects(s: WorldState, scene: Scene, updateAttached: bool, backend: Backend, n: string)
    requires ValidState(s)
    requires Update(s, scene, updateAttached, backend).error.None?
    requires n in s.objects && n !in s.attached
    ensures var t := Update(s, scene, updateAttached, backend).state;
      && n in t.objects
      && (match LastActorNamed(scene.actors, n)
          case Some(a) => t.objects[n].pose == a.entity.pose
          case None => t.objects[n] == s.objects[n])
  {
    UpdatePointwise(s, scene, updateAttached, backend);
  }

  /**
   * With `updateAttached`, after a successful pass an attached object sits
   * exactly at its entity's world pose, provided the backend's pose of the
   * link it rides on is a rigid motion.
   */
  lemma UpdateAttachedFollowsEntity(s: WorldState, scene: Scene, backend: Backend, n: string)
    requires ValidState(s)
    requires Update(s, scene, true, backend).error.None?
    requires n in s.attached && LastActorNamed(scene.actors, n).Some?
    ensures var t := Update(s, scene, true, backend).state;
      && n in t.attached
      && var body := t.attached[n];
      && body.articulationName in t.articulations
      && (Rigid(backend.linkGlobalPose(t.articulations[body.articulationName], body.linkId))
          ==> body.entry.pose == LastActorNamed(scene.actors, n).value.entity.pose)
  {
    UpdatePointwise(s, scene, true, backend);
    UpdateKeepsShapes(s, scene, true, backend);
    var t := Update(s, scene, true, backend).state;
    var body := t.attached[n];
    var link := backend.linkGlobalPose(t.articulations[body.articulationName], body.linkId);
    if Rigid(link) {
      ComposeInverseCancels(link, LastActorNamed(scene.actors, n).value.entity.pose);
    }
  }

  lemma SyncedArticulationsTwice(models: map<string, ArticulatedModel>, arts: seq<SimArticulation>)
    ensures SyncedArticulations(SyncedArticulations(models, arts), arts) == SyncedArticulations(models, arts)
  {
    var once := SyncedArticulations(models, arts);
    var twice := SyncedArticulations(once, arts);
    forall n | n in models ensures twice[n] == once[n] {
    }
  }

  lemma SyncedObjectsTwice(a: WorldState, t: WorldState, actors: seq<Actor>)
    requires t.objects == SyncedObjects(a, actors) && t.attached.Keys == a.attached.Keys
    ensures SyncedObjects(t, actors) == t.objects
  {
    var twice := SyncedObjects(t, actors);
    forall n | n in t.objects ensures twice[n] == t.objects[n] {
    }
  }

  lemma SyncedAttachedTwice(a: WorldState, t: WorldState, actors: seq<Actor>, updateAttached: bool, backend: Backend)
    requires ValidState(a) && ValidState(t)
    requires t.attached == SyncedAttached(a, actors, updateAttached, backend) && t.articulations == a.articulations
    ensures SyncedAttached(t, actors, updateAttached, backend) == t.attached
  {
    var twice := SyncedAttached(t, actors, updateAttached, backend);
    forall n | n in t.attached ensures twice[n] == t.attached[n] {
      if LastActorNamed(actors, n).Some? {
        var p := LastActorNamed(actors, n).value.entity.pose;
        SyncBodyTwice(a.articulations, a.attached[n], p, p, updateAttached, backend);
      }
    }
  }

  /**
   * A second pass over the same snapshot succeeds and changes nothing but
   * the warnings, which it issues again.
   */
  lemma UpdateIdempotent(s: WorldState, scene: Scene, updateAttached: bool, backend: Backend)
    requires ValidState(s)
    requires Update(s, scene, updateAttached, backend).error.None?
    ensures var t := Update(s, scene, updateAttached, backend).state;
      && ValidState(t)
      && Update(t, scene, updateAttached, backend).error.None?
      && Update(t, scene, updateAttached, backend).state == t.(warnings := t.warnings + StrayWarnings(s, scene.actors))
  {
    var t := Update(s, scene, updateAttached, backend).state;
    UpdateKeepsShapes(s, scene, updateAttached, backend);
    UpdateFailsIff(s, scene, updateAttached, backend);
    UpdateFailsIff(t, scene, updateAttached, backend);
    assert forall x :: Stuck(t, x) <==> Stuck(s, x);
    UpdatePointwise(s, scene, updateAttached, backend);
    UpdatePointwise(t, scene, updateAttached, backend);
    var a := s.(articulations := SyncedArticulations(s.articulations, scene.articulations));
    SyncedArticulationsTwice(s.articulations, scene.articulations);
    var ta := t.(articulations := SyncedArticulations(t.articulations, scene.articulations));
    assert ta == t;
    SyncedObjectsTwice(a, t, scene.actors);
    SyncedAttachedTwice(a, t, scene.actors, updateAttached, backend);
    StrayWarningsByKeys(s, t, scene.actors);
  }
}
