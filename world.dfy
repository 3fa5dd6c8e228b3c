/**
 * `SapienPlanningWorld`: the planning world built from a SAPIEN scene and
 * kept in step with it. The world's maps are fields of a class; what
 * construction and `update_from_simulation` do to them is also given as
 * functions over a `WorldState` value, which the methods are proved to
 * follow step by step.
 */
module PlanningWorld {
  import opened Results
  import opened Geometry
  import opened Sapien
  import opened Fcl
  import opened Naming
  import opened Conversion

  /**
   * `ArticulatedModel`: the planning mirror of one articulation, with its
   * link and joint names, the link entries that have shapes, the gravity
   * it was built with, its base pose and joint positions, and the joint
   * types and limits of its kinematic model.
   */
  datatype ArticulatedModel = ArticulatedModel(
    name: string,
    linkNames: seq<string>,
    jointNames: seq<string>,
    collisionLinks: seq<FclObject>,
    gravity: Vec3,
    basePose: Pose,
    qpos: seq<real>,
    jointTypes: seq<string>,
    jointLimits: seq<seq<JointLimit>>)

  /**
   * An attached object: its entry, the articulation and link it rides on,
   * its pose relative to that link and its touch links.
   */
  datatype AttachedBody = AttachedBody(
    name: string,
    entry: FclObject,
    articulationName: string,
    linkId: nat,
    pose: Pose,
    touchLinks: seq<string>)

  /** A warning: a live entity with shapes that the world does not know, or a collision found at planner set-up. */
  datatype Diagnostic =
    | EntityNotInWorld(entityName: string)
    | InitialCollision(linkName1: string, linkName2: string, objectName2: string)

  /** What a SAPIEN object resolves to for a query: an articulation's collision model or an object's entry. */
  datatype CollisionTarget = ModelTarget(model: ArticulatedModel) | ObjectTarget(entry: FclObject)

  /**
   * The world's maps: articulations by name, the names of the planned
   * ones, objects by name, attached objects by name, the allowed-collision
   * matrix, and the warnings issued so far.
   */
  datatype WorldState = WorldState(
    articulations: map<string, ArticulatedModel>,
    planned: set<string>,
    objects: map<string, FclObject>,
    attached: map<string, AttachedBody>,
    acm: Acm,
    warnings: seq<Diagnostic>)

  /**
   * The collision and kinematics services this layer calls without seeing:
   * FCL's pairwise `collide` and `distance`, an articulation model's own
   * `check_collision_with` and `distance_with`, the result
   * `WorldDistanceResult()` starts from, the world pose of a link of a
   * model, the world's `check_robot_collision`, and the joint indices of a
   * move group.
   */
  datatype Backend = Backend(
    collide: (FclObject, FclObject) -> CollisionResult,
    distance: (FclObject, FclObject) -> DistanceResult,
    modelCollide: (ArticulatedModel, CollisionTarget, Acm) -> seq<WorldCollisionResult>,
    modelDistance: (ArticulatedModel, CollisionTarget, Acm) -> WorldDistanceResult,
    defaultDistance: WorldDistanceResult,
    linkGlobalPose: (ArticulatedModel, nat) -> Pose,
    robotCollisions: WorldState -> seq<WorldCollisionResult>,
    moveGroupJointIndices: (ArticulatedModel, string) -> seq<nat>)

  /** A world after some steps, and the exception that stopped them, if any. */
  datatype Step = Step(state: WorldState, error: Option<Error>)

  /** `PlanningWorld([])`: nothing registered, an empty matrix. */
  const EmptyWorld: WorldState := WorldState(map[], {}, map[], map[], EmptyAcm, [])

  /**
   * Every attached object rides on a registered articulation, every object
   * is stored under its own name, and only registered articulations are
   * planned.
   */
  ghost predicate ValidState(s: WorldState)
  {
    && (forall n :: n in s.attached ==> s.attached[n].articulationName in s.articulations)
    && (forall n :: n in s.objects ==> s.objects[n].name == n)
    && s.planned <= s.articulations.Keys
  }

  function ErrorOf(o: Outcome): Option<Error>
  {
    if o.Fail? then Some(o.error) else None
  }

  // ----- Construction -----

  function LinkNames(links: seq<RigidComponent>): (r: seq<string>)
    ensures |r| == |links| && forall i :: 0 <= i < |links| ==> r[i] == links[i].name
  {
    seq(|links|, i requires 0 <= i < |links| => links[i].name)
  }

  /**
   * The link entries gathered so far (`acc`) followed by those of `links`:
   * links without shapes are skipped, the first TypeError stops the walk.
   */
  function CollisionLinksFrom(acc: seq<FclObject>, links: seq<RigidComponent>): Result<seq<FclObject>>
    decreases |links|
  {
    if links == [] then Success(acc)
    else match ConvertComponent(links[0])
      case Failure(e) => Failure(e)
      case Success(None) => CollisionLinksFrom(acc, links[1..])
      case Success(Some(obj)) => CollisionLinksFrom(acc + [obj], links[1..])
  }

  /** The `collision_links` list of an articulation. */
  function CollisionLinks(links: seq<RigidComponent>): Result<seq<FclObject>>
  {
    CollisionLinksFrom([], links)
  }

  /**
   * The model built for an articulation, posed at its root pose and joint
   * positions. It is named after the articulation's unique name, which is
   * the name its exported kinematic description carries.
   */
  function NewModel(art: SimArticulation, links: seq<FclObject>, gravity: Vec3): ArticulatedModel
  {
    ArticulatedModel(ArticulationName(art), LinkNames(art.links), art.activeJointNames, links, gravity,
                     art.rootPose, art.qpos, art.jointTypes, art.jointLimits)
  }

  function RegisterArticulation(s: WorldState, art: SimArticulation, gravity: Vec3): Step
  {
    match CollisionLinks(art.links)
    case Failure(e) => Step(s, Some(e))
    case Success(links) =>
      var model := NewModel(art, links, gravity);
      Step(s.(articulations := s.articulations[model.name := model]), None)
  }

  /** The first loop of the constructor, over the scene's articulations. */
  function RegisterArticulations(s: WorldState, arts: seq<SimArticulation>, gravity: Vec3): Step
    decreases |arts|
  {
    if arts == [] then Step(s, None)
    else
      var st := RegisterArticulation(s, arts[0], gravity);
      if st.error.Some? then st else RegisterArticulations(st.state, arts[1..], gravity)
  }

  /** `set_articulation_planned(name, True)`: an unregistered name is refused. */
  function MarkPlanned(s: WorldState, name: string): Step
  {
    if name in s.articulations then Step(s.(planned := s.planned + {name}), None)
    else Step(s, Some(IndexError(name)))
  }

  function MarkAllPlanned(s: WorldState, arts: seq<SimArticulation>): Step
    decreases |arts|
  {
    if arts == [] then Step(s, None)
    else
      var st := MarkPlanned(s, ArticulationName(arts[0]));
      if st.error.Some? then st else MarkAllPlanned(st.state, arts[1..])
  }

  /** An actor must carry a rigid component; its entry, if it has shapes, is added. */
  function RegisterActor(s: WorldState, actor: Actor): Step
  {
    match actor.rigid
    case None => Step(s, Some(AssertionError(actor.entity.name)))
    case Some(comp) =>
      match ConvertComponent(comp)
      case Failure(e) => Step(s, Some(e))
      case Success(None) => Step(s, None)
      case Success(Some(obj)) => Step(s.(objects := s.objects[obj.name := obj]), None)
  }

  function RegisterActors(s: WorldState, actors: seq<Actor>): Step
    decreases |actors|
  {
    if actors == [] then Step(s, None)
    else
      var st := RegisterActor(s, actors[0]);
      if st.error.Some? then st else RegisterActors(st.state, actors[1..])
  }

  /** What `SapienPlanningWorld(scene, planned_articulations)` does to a world. */
  function Build(s: WorldState, scene: Scene, planned: seq<SimArticulation>): Step
  {
    var a := RegisterArticulations(s, scene.articulations, scene.gravity);
    if a.error.Some? then a
    else
      var p := MarkAllPlanned(a.state, planned);
      if p.error.Some? then p
      else RegisterActors(p.state, scene.actors)
  }

  // ----- Synchronisation -----

  /** Refreshes one articulation's base pose and joint positions; an unknown one is a RuntimeError. */
  function SyncArticulation(s: WorldState, art: SimArticulation): Step
  {
    var name := ArticulationName(art);
    if name in s.articulations then
      var model := s.articulations[name].(basePose := art.rootPose, qpos := art.qpos);
      Step(s.(articulations := s.articulations[name := model]), None)
    else Step(s, Some(RuntimeError(art.name)))
  }

  function SyncArticulations(s: WorldState, arts: seq<SimArticulation>): Step
    decreases |arts|
  {
    if arts == [] then Step(s, None)
    else
      var st := SyncArticulation(s, arts[0]);
      if st.error.Some? then st else SyncArticulations(st.state, arts[1..])
  }

  /**
   * An attached body after a pass: with `updateAttached` its relative pose
   * becomes (link pose)^-1 * (entity pose); either way its entry is put at
   * (link pose) * (relative pose). Its shapes and their poses stay.
   */
  function SyncBody(articulations: map<string, ArticulatedModel>, body: AttachedBody, entityPose: Pose,
                    updateAttached: bool, backend: Backend): AttachedBody
    requires body.articulationName in articulations
  {
    var link := backend.linkGlobalPose(articulations[body.articulationName], body.linkId);
    var rel := if updateAttached then Compose(Inverse(link), entityPose) else body.pose;
    body.(pose := rel, entry := body.entry.(pose := Compose(link, rel)))
  }

  /** The registered entry of an object, moved to a new pose with its shapes as they were. */
  function MovedObject(name: string, prior: FclObject, pose: Pose): FclObject
  {
    FclObject(name, pose, prior.shapes, prior.shapePoses)
  }

  /**
   * One actor in `update_from_simulation`: an attached object follows its
   * link, a registered object moves, an unknown entity with shapes only
   * draws a warning, and an unknown entity without a rigid component fails
   * when its shapes are read.
   */
  function SyncActor(s: WorldState, actor: Actor, updateAttached: bool, backend: Backend): (st: Step)
    requires ValidState(s)
    ensures ValidState(st.state)
    ensures st.state.articulations == s.articulations && st.state.planned == s.planned && st.state.acm == s.acm
    ensures st.state.objects.Keys == s.objects.Keys && st.state.attached.Keys == s.attached.Keys
  {
    var name := EntityName(actor.entity);
    if name in s.attached then
      var body := SyncBody(s.articulations, s.attached[name], actor.entity.pose, updateAttached, backend);
      Step(s.(attached := s.attached[name := body]), None)
    else if name in s.objects then
      Step(s.(objects := s.objects[name := MovedObject(name, s.objects[name], actor.entity.pose)]), None)
    else match actor.rigid
      case None => Step(s, Some(AttributeError(actor.entity.name)))
      case Some(comp) =>
        if |comp.collisionShapes| > 0 then Step(s.(warnings := s.warnings + [EntityNotInWorld(actor.entity.name)]), None)
        else Step(s, None)
  }

  function SyncActors(s: WorldState, actors: seq<Actor>, updateAttached: bool, backend: Backend): (st: Step)
    requires ValidState(s)
    ensures ValidState(st.state)
    ensures st.state.articulations == s.articulations && st.state.planned == s.planned && st.state.acm == s.acm
    ensures st.state.objects.Keys == s.objects.Keys && st.state.attached.Keys == s.attached.Keys
    decreases |actors|
  {
    if actors == [] then Step(s, None)
    else
      var st := SyncActor(s, actors[0], updateAttached, backend);
      if st.error.Some? then st else SyncActors(st.state, actors[1..], updateAttached, backend)
  }

  lemma {:induction false} SyncArticulationsKeepsShape(s: WorldState, arts: seq<SimArticulation>)
    requires ValidState(s)
    ensures var st := SyncArticulations(s, arts);
      && ValidState(st.state)
      && st.state.articulations.Keys == s.articulations.Keys
      && st.state == s.(articulations := st.state.articulations)
    decreases |arts|
  {
    if arts != [] {
      var st := SyncArticulation(s, arts[0]);
      if st.error.None? {
        SyncArticulationsKeepsShape(st.state, arts[1..]);
      }
    }
  }

  /** What `update_from_simulation` does to a world: articulations first, then actors. */
  function Update(s: WorldState, scene: Scene, updateAttached: bool, backend: Backend): Step
    requires ValidState(s)
  {
    var a := SyncArticulations(s, scene.articulations);
    SyncArticulationsKeepsShape(s, scene.articulations);
    if a.error.Some? then a else SyncActors(a.state, scene.actors, updateAttached, backend)
  }

  // ----- Arguments given as SAPIEN objects or as names -----

  /** An object given as an entity or by name. */
  datatype EntityOrName = EntityArg(entity: EntityInfo) | EntityNameArg(name: string)

  /** An articulation given as itself or by name. */
  datatype ArticulationOrName = ArticulationArg(articulation: SimArticulation) | ArticulationNameArg(name: string)

  /** A link given as its component or by index. */
  datatype LinkOrIndex = LinkArg(link: RigidComponent) | LinkIndexArg(index: int)

  /** A touch link given as its component or by name. */
  datatype LinkOrName = TouchLinkArg(link: RigidComponent) | TouchLinkNameArg(name: string)

  /** One side of an allowed-collision entry: an entity, a link component, or a name. */
  datatype CollisionParty = PartyEntity(entity: EntityInfo) | PartyLink(link: RigidComponent) | PartyName(name: string)

  /** The name an object argument stands for: an entity's unique name, or the name given. */
  function ObjectKey(obj: EntityOrName): (r: string)
    ensures obj.EntityArg? ==> ConvertObjectName(EntityObj(obj.entity)) == Success(r)
    ensures obj.EntityArg? ==> IdOfName(r) == Some(obj.entity.perSceneId)
    ensures obj.EntityNameArg? ==> r == obj.name
  {
    match obj
    case EntityArg(e) =>
      ObjectNameRoundTrip(e.name, e.perSceneId);
      EntityName(e)
    case EntityNameArg(n) => n
  }

  /** The name an articulation argument stands for: its unique name, or the name given. */
  function ArticulationKey(art: ArticulationOrName): (r: string)
    ensures art.ArticulationArg? ==> ConvertObjectName(ArticulationObj(art.articulation)) == Success(r)
    ensures art.ArticulationArg? ==> IdOfName(r) == Some(art.articulation.root.perSceneId)
    ensures art.ArticulationNameArg? ==> r == art.name
  {
    match art
    case ArticulationArg(a) =>
      ObjectNameRoundTrip(a.name, a.root.perSceneId);
      ArticulationName(a)
    case ArticulationNameArg(n) => n
  }

  /**
   * The TypeError the C++ binding raises when a Python value of a type it
   * does not accept reaches it, such as a rigid component that is not an
   * articulation link where a name or an index is expected.
   */
  const BindingRefused: Error := TypeError("incompatible function arguments")

  /**
   * Entities are named by their unique name, articulation links by their
   * plain name. Any other component is passed on as it is, and the binding
   * refuses it.
   */
  function PartyKey(p: CollisionParty): (r: Result<string>)
    ensures r.Failure? <==> p.PartyLink? && !p.link.kind.ArticulationLink?
    ensures r.Failure? ==> r.error == BindingRefused
    ensures p.PartyEntity? ==> ConvertObjectName(EntityObj(p.entity)) == r
    ensures p.PartyLink? && r.Success? ==> r.value == p.link.name
    ensures p.PartyName? ==> r == Success(p.name)
  {
    match p
    case PartyEntity(e) => Success(EntityName(e))
    case PartyLink(l) => if l.kind.ArticulationLink? then Success(l.name) else Failure(BindingRefused)
    case PartyName(n) => Success(n)
  }

  /** `list.index`: the first position holding `x`, or a ValueError. */
  function IndexOf(xs: seq<string>, x: string): (r: Result<nat>)
    ensures r.Success? <==> x in xs
    ensures r.Success? ==> r.value < |xs| && xs[r.value] == x && forall j :: 0 <= j < r.value ==> xs[j] != x
    ensures r.Failure? ==> r.error == ValueError(x)
    decreases |xs|
  {
    if xs == [] then Failure(ValueError(x))
    else if xs[0] == x then Success(0)
    else match IndexOf(xs[1..], x)
      case Success(i) => Success(i + 1)
      case Failure(e) => Failure(e)
  }

  /**
   * The articulation name and link index an attach call passes on: a link
   * component becomes the index of its name among the link names of the
   * named articulation's model. An unknown articulation fails when its
   * model is read (an AttributeError), an unknown link name with a
   * ValueError; a plain index is passed on as given. A component that is
   * not an articulation link is passed on as it is, and the binding
   * refuses it.
   */
  function ResolveAttachLink(s: WorldState, art: ArticulationOrName, link: LinkOrIndex): (r: Result<(string, int)>)
    ensures r.Success? ==> r.value.0 == ArticulationKey(art)
    ensures link.LinkIndexArg? ==> r == Success((ArticulationKey(art), link.index))
    ensures link.LinkArg? && !link.link.kind.ArticulationLink? ==> r == Failure(BindingRefused)
    ensures link.LinkArg? && link.link.kind.ArticulationLink? ==>
      var name := ArticulationKey(art);
      && (r.Success? <==> name in s.articulations && link.link.name in s.articulations[name].linkNames)
      && (name !in s.articulations ==> r == Failure(AttributeError(name)))
      && (r.Success? ==>
            var names := s.articulations[name].linkNames;
            && 0 <= r.value.1 < |names| && names[r.value.1] == link.link.name
            && forall j :: 0 <= j < r.value.1 ==> names[j] != link.link.name)
  {
    var name := ArticulationKey(art);
    match link
    case LinkIndexArg(i) => Success((name, i))
    case LinkArg(c) =>
      if !c.kind.ArticulationLink? then Failure(BindingRefused)
      else if name !in s.articulations then Failure(AttributeError(name))
      else match IndexOf(s.articulations[name].linkNames, c.name)
        case Success(i) => Success((name, i))
        case Failure(e) => Failure(e)
  }

  function TouchLinkNames(links: seq<LinkOrName>): (r: seq<string>)
    ensures |r| == |links|
    ensures forall i :: 0 <= i < |links| ==> r[i] == (if links[i].TouchLinkArg? then links[i].link.name else links[i].name)
  {
    seq(|links|, i requires 0 <= i < |links| => if links[i].TouchLinkArg? then links[i].link.name else links[i].name)
  }

  /** Whether every touch link given as a component is an articulation link. */
  predicate TouchLinksAccepted(links: seq<LinkOrName>)
  {
    forall i :: 0 <= i < |links| && links[i].TouchLinkArg? ==> links[i].link.kind.ArticulationLink?
  }

  /** The keyword arguments `attach_object` passes to the planning world. */
  datatype AttachRequest = AttachRequest(
    name: string, articulationName: string, linkId: int,
    pose: Option<Pose>, touchLinks: Option<seq<string>>, objGeom: Option<CollisionGeometry>)

  /**
   * `attach_object`'s argument normalisation, up to the call into the
   * planning world: that call refuses a link or touch link that is a
   * component but not an articulation link.
   */
  function AttachObjectRequest(s: WorldState, obj: EntityOrName, art: ArticulationOrName, link: LinkOrIndex,
                               pose: Option<Pose>, touchLinks: Option<seq<LinkOrName>>,
                               objGeom: Option<CollisionGeometry>): (r: Result<AttachRequest>)
    ensures var artName := ArticulationKey(art);
      r.Failure? <==>
        || (link.LinkArg? && (!link.link.kind.ArticulationLink? || artName !in s.articulations
                              || link.link.name !in s.articulations[artName].linkNames))
        || (touchLinks.Some? && !TouchLinksAccepted(touchLinks.value))
    ensures r.Failure? ==>
      var artName := ArticulationKey(art);
      r.error ==
        if link.LinkArg? && link.link.kind.ArticulationLink? && artName !in s.articulations then AttributeError(artName)
        else if link.LinkArg? && link.link.kind.ArticulationLink? && link.link.name !in s.articulations[artName].linkNames
        then ValueError(link.link.name)
        else BindingRefused
    ensures r.Success? && obj.EntityArg? ==> ConvertObjectName(EntityObj(obj.entity)) == Success(r.value.name)
    ensures r.Success? && obj.EntityNameArg? ==> r.value.name == obj.name
    ensures r.Success? && art.ArticulationArg? ==> ConvertObjectName(ArticulationObj(art.articulation)) == Success(r.value.articulationName)
    ensures r.Success? && art.ArticulationNameArg? ==> r.value.articulationName == art.name
    ensures r.Success? && link.LinkIndexArg? ==> r.value.linkId == link.index
    ensures r.Success? && link.LinkArg? ==>
      var names := s.articulations[r.value.articulationName].linkNames;
      && 0 <= r.value.linkId < |names| && names[r.value.linkId] == link.link.name
      && forall j :: 0 <= j < r.value.linkId ==> names[j] != link.link.name
    ensures r.Success? ==> r.value.pose == pose && r.value.objGeom == objGeom
    ensures r.Success? ==>
      && (r.value.touchLinks.Some? <==> touchLinks.Some?)
      && (touchLinks.Some? ==>
            var given, passed := touchLinks.value, r.value.touchLinks.value;
            && |passed| == |given|
            && (forall i :: 0 <= i < |given| && given[i].TouchLinkArg? ==> passed[i] == given[i].link.name)
            && (forall i :: 0 <= i < |given| && given[i].TouchLinkNameArg? ==> passed[i] == given[i].name))
  {
    match ResolveAttachLink(s, art, link)
    case Failure(e) => Failure(e)
    case Success((artName, linkId)) =>
      if touchLinks.Some? && !TouchLinksAccepted(touchLinks.value) then Failure(BindingRefused)
      else
        var touch := if touchLinks.Some? then Some(TouchLinkNames(touchLinks.value)) else None;
        Success(AttachRequest(ObjectKey(obj), artName, linkId, pose, touch, objGeom))
  }

  // ----- The class -----

  /** The mutable planning world; `backend` stands for the C++ services it calls. */
  class SapienPlanningWorld {
    var articulations: map<string, ArticulatedModel>
    var planned: set<string>
    var objects: map<string, FclObject>
    var attached: map<string, AttachedBody>
    var acm: Acm
    var warnings: seq<Diagnostic>
    const backend: Backend

    function State(): WorldState
      reads this
    {
      WorldState(articulations, planned, objects, attached, acm, warnings)
    }

    ghost predicate Valid()
      reads this
    {
      ValidState(State())
    }

    /** `super().__init__([])`: an empty world. */
    constructor (backend: Backend)
      ensures State() == EmptyWorld && this.backend == backend
      ensures Valid()
    {
      articulations, planned, objects, attached := map[], {}, map[], map[];
      acm, warnings := EmptyAcm, [];
      this.backend := backend;
    }

    /** `add_object(fcl_obj)`: the entry is stored under its own name, replacing any earlier one. */
    method AddFclObject(obj: FclObject)
      requires Valid()
      modifies this
      ensures Valid()
      ensures State() == old(State()).(objects := old(objects)[obj.name := obj])
    {
      objects := objects[obj.name := obj];
    }

    /**
     * `is_articulation_planned`: whether the articulation the argument
     * names is planned; in a valid world only a registered one can be.
     */
    function IsArticulationPlanned(art: ArticulationOrName): (r: bool)
      reads this
      ensures art.ArticulationArg? ==> (r <==> ArticulationName(art.articulation) in planned)
      ensures art.ArticulationNameArg? ==> (r <==> art.name in planned)
      ensures r && Valid() ==> ArticulationKey(art) in articulations
    {
      ArticulationKey(art) in planned
    }

    /**
     * `set_articulation_planned`: a registered articulation joins or leaves
     * the planned set; an unregistered name is refused with an IndexError.
     */
    method SetArticulationPlanned(art: ArticulationOrName, on: bool) returns (outcome: Outcome)
      requires Valid()
      modifies this
      ensures Valid()
      ensures outcome.Pass? ==> IsArticulationPlanned(art) == on
      ensures var name := ArticulationKey(art);
        && (outcome.Fail? <==> name !in old(articulations))
        && (outcome.Fail? ==> outcome.error == IndexError(name) && State() == old(State()))
        && (outcome.Pass? ==> State() == old(State()).(planned := if on then old(planned) + {name} else old(planned) - {name}))
    {
      var name := ArticulationKey(art);
      if name !in articulations {
        return Fail(IndexError(name));
      }
      planned := if on then planned + {name} else planned - {name};
      return Pass;
    }

    /**
     * `has_object`: whether an object is stored under the name the argument
     * stands for; in a valid world that entry carries the same name.
     */
    function HasObject(obj: EntityOrName): (r: bool)
      reads this
      ensures obj.EntityArg? ==> (r <==> EntityName(obj.entity) in objects)
      ensures obj.EntityNameArg? ==> (r <==> obj.name in objects)
      ensures r && Valid() ==> objects[ObjectKey(obj)].name == ObjectKey(obj)
    {
      ObjectKey(obj) in objects
    }

    /**
     * `is_object_attached`: whether an object is attached under the name
     * the argument stands for; in a valid world it rides on a registered
     * articulation.
     */
    function IsObjectAttached(obj: EntityOrName): (r: bool)
      reads this
      ensures obj.EntityArg? ==> (r <==> EntityName(obj.entity) in attached)
      ensures obj.EntityNameArg? ==> (r <==> obj.name in attached)
      ensures r && Valid() ==> attached[ObjectKey(obj)].articulationName in articulations
    {
      ObjectKey(obj) in attached
    }

    /**
     * `add_object` given an entity: it must carry a rigid component, whose
     * entry, if it has shapes, is stored at the current pose.
     */
    method AddEntity(actor: Actor) returns (outcome: Outcome)
      requires Valid()
      modifies this
      ensures Valid()
      ensures RegisterActor(old(State()), actor) == Step(State(), ErrorOf(outcome))
    {
      if actor.rigid.None? {
        return Fail(AssertionError(actor.entity.name));
      }
      var c := ConvertPhysxComponent(actor.rigid.value);
      match c {
        case Failure(e) =>
          return Fail(e);
        case Success(None) =>
        case Success(Some(obj)) =>
          AddFclObject(obj);
      }
      return Pass;
    }

    /**
     * `set_allowed_collision`: both orders of the named pair get the entry;
     * a party the binding refuses leaves the matrix as it was.
     */
    method SetAllowedCollision(p1: CollisionParty, p2: CollisionParty, allowed: bool) returns (outcome: Outcome)
      requires Valid()
      modifies this
      ensures Valid()
      ensures outcome.Fail? <==> PartyKey(p1).Failure? || PartyKey(p2).Failure?
      ensures outcome.Fail? ==> outcome.error == BindingRefused && State() == old(State())
      ensures outcome.Pass? ==>
        State() == old(State()).(acm := SetEntry(old(acm), PartyKey(p1).value, PartyKey(p2).value, allowed))
    {
      var k1, k2 := PartyKey(p1), PartyKey(p2);
      if k1.Failure? || k2.Failure? {
        return Fail(BindingRefused);
      }
      acm := SetEntry(acm, k1.value, k2.value, allowed);
      return Pass;
    }

    /** The link entries of one articulation, converted link by link. */
    method CollectCollisionLinks(links: seq<RigidComponent>) returns (r: Result<seq<FclObject>>)
      ensures r == CollisionLinks(links)
    {
      var acc: seq<FclObject> := [];
      var j := 0;
      while j < |links|
        invariant 0 <= j <= |links|
        invariant CollisionLinks(links) == CollisionLinksFrom(acc, links[j..])
      {
        assert links[j..][0] == links[j] && links[j..][1..] == links[j + 1..];
        var c := ConvertPhysxComponent(links[j]);
        match c {
          case Failure(e) =>
            return Failure(e);
          case Success(None) =>
          case Success(Some(obj)) =>
            acc := acc + [obj];
        }
        j := j + 1;
      }
      return Success(acc);
    }

    /**
     * The body of `SapienPlanningWorld.__init__` after the empty world is
     * made: register every articulation of the scene, mark the planned
     * ones, then register every actor that has collision shapes.
     */
    method Populate(scene: Scene, plannedArts: seq<SimArticulation>) returns (outcome: Outcome)
      requires Valid()
      modifies this
      ensures Valid()
      ensures Build(old(State()), scene, plannedArts) == Step(State(), ErrorOf(outcome))
    {
      outcome := AddArticulations(scene.articulations, scene.gravity);
      if outcome.Fail? {
        return;
      }
      outcome := MarkPlannedArticulations(plannedArts);
      if outcome.Fail? {
        return;
      }
      outcome := AddActors(scene.actors);
    }

    /** The constructor's first loop: one model per articulation, built from its links. */
    method AddArticulations(arts: seq<SimArticulation>, gravity: Vec3) returns (outcome: Outcome)
      requires Valid()
      modifies this`articulations
      ensures Valid()
      ensures RegisterArticulations(old(State()), arts, gravity) == Step(State(), ErrorOf(outcome))
    {
      var i := 0;
      while i < |arts|
        invariant 0 <= i <= |arts|
        invariant Valid()
        invariant RegisterArticulations(old(State()), arts, gravity)
               == RegisterArticulations(State(), arts[i..], gravity)
      {
        assert arts[i..][0] == arts[i] && arts[i..][1..] == arts[i + 1..];
        var art := arts[i];
        var links := CollectCollisionLinks(art.links);
        if links.Failure? {
          return Fail(links.error);
        }
        var model := ArticulatedModel(ArticulationName(art), LinkNames(art.links), art.activeJointNames,
                                      links.value, gravity, Identity, [], art.jointTypes, art.jointLimits);
        model := model.(basePose := art.rootPose);
        model := model.(qpos := art.qpos);
        articulations := articulations[model.name := model];
        i := i + 1;
      }
      return Pass;
    }

    /** The constructor's second loop: each requested articulation is marked as planned. */
    method MarkPlannedArticulations(plannedArts: seq<SimArticulation>) returns (outcome: Outcome)
      requires Valid()
      modifies this`planned
      ensures Valid()
      ensures MarkAllPlanned(old(State()), plannedArts) == Step(State(), ErrorOf(outcome))
    {
      var i := 0;
      while i < |plannedArts|
        invariant 0 <= i <= |plannedArts|
        invariant Valid()
        invariant MarkAllPlanned(old(State()), plannedArts) == MarkAllPlanned(State(), plannedArts[i..])
      {
        assert plannedArts[i..][0] == plannedArts[i] && plannedArts[i..][1..] == plannedArts[i + 1..];
        var name := ArticulationName(plannedArts[i]);
        if name !in articulations {
          return Fail(IndexError(name));
        }
        planned := planned + {name};
        i := i + 1;
      }
      return Pass;
    }

    /** The constructor's third loop: each actor's entry, if it has shapes, is added. */
    method AddActors(actors: seq<Actor>) returns (outcome: Outcome)
      requires Valid()
      modifies this`objects
      ensures Valid()
      ensures RegisterActors(old(State()), actors) == Step(State(), ErrorOf(outcome))
    {
      var i := 0;
      while i < |actors|
        invariant 0 <= i <= |actors|
        invariant Valid()
        invariant RegisterActors(old(State()), actors) == RegisterActors(State(), actors[i..])
      {
        assert actors[i..][0] == actors[i] && actors[i..][1..] == actors[i + 1..];
        var actor := actors[i];
        if actor.rigid.None? {
          return Fail(AssertionError(actor.entity.name));
        }
        var c := ConvertPhysxComponent(actor.rigid.value);
        match c {
          case Failure(e) =>
            return Fail(e);
          case Success(None) =>
          case Success(Some(obj)) =>
            objects := objects[obj.name := obj];
        }
        i := i + 1;
      }
      return Pass;
    }

    /** One articulation of the scene: its model takes the root pose and joint positions. */
    method SyncArticulationInPlace(art: SimArticulation) returns (err: Option<Error>)
      requires Valid()
      modifies this
      ensures Valid()
      ensures SyncArticulation(old(State()), art) == Step(State(), err)
    {
      var name := ArticulationName(art);
      if name !in articulations {
        return Some(RuntimeError(art.name));
      }
      var model := articulations[name];
      model := model.(basePose := art.rootPose);
      model := model.(qpos := art.qpos);
      articulations := articulations[name := model];
      return None;
    }

    /** One actor of the scene, as `SyncActor` describes. */
    method SyncActorInPlace(actor: Actor, updateAttached: bool) returns (err: Option<Error>)
      requires Valid()
      modifies this
      ensures Valid()
      ensures SyncActor(old(State()), actor, updateAttached, backend) == Step(State(), err)
    {
      var entity := actor.entity;
      var name := EntityName(entity);
      if name in attached {
        var body := attached[name];
        var link := backend.linkGlobalPose(articulations[body.articulationName], body.linkId);
        if updateAttached {
          body := body.(pose := Compose(Inverse(link), entity.pose));
        }
        body := body.(entry := body.entry.(pose := Compose(link, body.pose)));
        attached := attached[name := body];
      } else if name in objects {
        var obj := objects[name];
        objects := objects[name := FclObject(name, entity.pose, obj.shapes, obj.shapePoses)];
      } else if actor.rigid.None? {
        return Some(AttributeError(entity.name));
      } else if |actor.rigid.value.collisionShapes| > 0 {
        warnings := warnings + [EntityNotInWorld(entity.name)];
      }
      return None;
    }

    /**
     * `update_from_simulation`: refresh every articulation from the scene,
     * then every actor. An exception leaves the changes made before it.
     */
    method UpdateFromSimulation(scene: Scene, updateAttached: bool) returns (outcome: Outcome)
      requires Valid()
      modifies this
      ensures Valid()
      ensures Update(old(State()), scene, updateAttached, backend) == Step(State(), ErrorOf(outcome))
    {
      outcome := SyncSceneArticulations(scene.articulations);
      if outcome.Fail? {
        return;
      }
      outcome := SyncSceneActors(scene.actors, updateAttached);
    }

    /** The first loop of `update_from_simulation`, over the scene's articulations. */
    method SyncSceneArticulations(arts: seq<SimArticulation>) returns (outcome: Outcome)
      requires Valid()
      modifies this
      ensures Valid()
      ensures SyncArticulations(old(State()), arts) == Step(State(), ErrorOf(outcome))
    {
      var i := 0;
      while i < |arts|
        invariant 0 <= i <= |arts|
        invariant Valid()
        invariant SyncArticulations(old(State()), arts) == SyncArticulations(State(), arts[i..])
      {
        assert arts[i..][0] == arts[i] && arts[i..][1..] == arts[i + 1..];
        var err := SyncArticulationInPlace(arts[i]);
        if err.Some? {
          return Fail(err.value);
        }
        i := i + 1;
      }
      return Pass;
    }

    /** The second loop of `update_from_simulation`, over the scene's actors. */
    method SyncSceneActors(actors: seq<Actor>, updateAttached: bool) returns (outcome: Outcome)
      requires Valid()
      modifies this
      ensures Valid()
      ensures SyncActors(old(State()), actors, updateAttached, backend) == Step(State(), ErrorOf(outcome))
    {
      var i := 0;
      while i < |actors|
        invariant 0 <= i <= |actors|
        invariant Valid()
        invariant SyncActors(old(State()), actors, updateAttached, backend)
               == SyncActors(State(), actors[i..], updateAttached, backend)
      {
        assert actors[i..][0] == actors[i] && actors[i..][1..] == actors[i + 1..];
        var err := SyncActorInPlace(actors[i], updateAttached);
        if err.Some? {
          return Fail(err.value);
        }
        i := i + 1;
      }
      return Pass;
    }
  }
}
