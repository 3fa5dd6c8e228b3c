/**
 * What constructing a `SapienPlanningWorld` from a scene promises: when it
 * fails, which entries it registers, what each articulation model holds,
 * and that every object entry is the conversion of a scene actor.
 */
module BuildProperties {
  import opened Results
  import opened Sapien
  import opened Fcl
  import opened Naming
  import opened Conversion
  import opened PlanningWorld
  import opened SyncProperties

  /** A component all of whose shapes convert. */
  predicate Convertible(comp: RigidComponent)
  {
    forall i :: 0 <= i < |comp.collisionShapes| ==> !comp.collisionShapes[i].UnknownShape?
  }

  /** Every link of every articulation converts. */
  predicate AllLinksConvertible(arts: seq<SimArticulation>)
  {
    forall k :: 0 <= k < |arts| ==> forall i :: 0 <= i < |arts[k].links| ==> Convertible(arts[k].links[i])
  }

  /** Every actor has a rigid component, and its shapes convert. */
  predicate AllActorsConvertible(actors: seq<Actor>)
  {
    forall k :: 0 <= k < |actors| ==> actors[k].rigid.Some? && Convertible(actors[k].rigid.value)
  }

  /** The links that have collision shapes, in order. */
  function LinksWithShapes(links: seq<RigidComponent>): seq<RigidComponent>
    decreases |links|
  {
    if links == [] then []
    else (if |links[0].collisionShapes| > 0 then [links[0]] else []) + LinksWithShapes(links[1..])
  }

  /** The unique names of some articulations. */
  function ArticulationNames(arts: seq<SimArticulation>): set<string>
    decreases |arts|
  {
    if arts == [] then {} else {ArticulationName(arts[0])} + ArticulationNames(arts[1..])
  }

  /** The entry names of the actors whose rigid component has shapes. */
  function EntryNames(actors: seq<Actor>): set<string>
    decreases |actors|
  {
    if actors == [] then {}
    else
      (if actors[0].rigid.Some? && |actors[0].rigid.value.collisionShapes| > 0 then {EntryName(actors[0].rigid.value)} else {})
      + EntryNames(actors[1..])
  }

  lemma ArticulationNamesMembership(arts: seq<SimArticulation>, n: string)
    ensures n in ArticulationNames(arts) <==> exists k :: 0 <= k < |arts| && ArticulationName(arts[k]) == n
    ensures n in ArticulationNames(arts) <==> LastArticulationNamed(arts, n).Some?
    decreases |arts|
  {
    if arts != [] {
      ArticulationNamesMembership(arts[1..], n);
      if n in ArticulationNames(arts[1..]) {
        var k :| 0 <= k < |arts[1..]| && ArticulationName(arts[1..][k]) == n;
        assert ArticulationName(arts[k + 1]) == n;
      }
      if exists k :: 0 <= k < |arts| && ArticulationName(arts[k]) == n {
        var k :| 0 <= k < |arts| && ArticulationName(arts[k]) == n;
        if k > 0 {
          assert ArticulationName(arts[1..][k - 1]) == n;
        }
      }
    }
  }

  lemma ConvertibleIff(comp: RigidComponent)
    ensures ConvertComponent(comp).Success? <==> Convertible(comp)
  {
    ConvertComponentCorrect(comp);
  }

  lemma NoEntryIff(comp: RigidComponent)
    ensures ConvertComponent(comp) == Success(None) <==> |comp.collisionShapes| == 0
    ensures ConvertComponent(comp).Success? && ConvertComponent(comp).value.Some? ==> |comp.collisionShapes| > 0
  {
    ConvertComponentCorrect(comp);
  }

  /** Gathering link entries succeeds exactly when every link converts. */
  lemma {:induction false} CollisionLinksFromFailsIff(acc: seq<FclObject>, links: seq<RigidComponent>)
    ensures CollisionLinksFrom(acc, links).Success? <==> forall i :: 0 <= i < |links| ==> Convertible(links[i])
    decreases |links|
  {
    if links != [] {
      var rest := links[1..];
      ConvertibleIff(links[0]);
      assert forall i :: 1 <= i < |links| ==> links[i] == rest[i - 1];
      assert (forall i :: 0 <= i < |links| ==> Convertible(links[i]))
         <==> Convertible(links[0]) && (forall i :: 0 <= i < |rest| ==> Convertible(rest[i]));
      match ConvertComponent(links[0])
      case Failure(_) =>
      case Success(None) =>
        CollisionLinksFromFailsIff(acc, rest);
      case Success(Some(o)) =>
        CollisionLinksFromFailsIff(acc + [o], rest);
    }
  }

  /** A successful gathering appends one entry per link with shapes, in order, each the conversion of its link. */
  lemma {:induction false} CollisionLinksFromContents(acc: seq<FclObject>, links: seq<RigidComponent>)
    ensures var r := CollisionLinksFrom(acc, links);
      r.Success? ==>
        var w := LinksWithShapes(links);
        && |r.value| == |acc| + |w| && r.value[..|acc|] == acc
        && forall i :: 0 <= i < |w| ==> ConvertComponent(w[i]) == Success(Some(r.value[|acc| + i]))
    decreases |links|
  {
    if links != [] {
      var rest := links[1..];
      NoEntryIff(links[0]);
      match ConvertComponent(links[0])
      case Failure(_) =>
      case Success(None) =>
        CollisionLinksFromContents(acc, rest);
      case Success(Some(o)) =>
        CollisionLinksFromContents(acc + [o], rest);
        var r := CollisionLinksFrom(acc, links);
        if r.Success? {
          var w := LinksWithShapes(links);
          assert w == [links[0]] + LinksWithShapes(rest);
          assert r.value[..|acc| + 1][..|acc|] == acc;
          forall i | 0 <= i < |w| ensures ConvertComponent(w[i]) == Success(Some(r.value[|acc| + i])) {
            if i > 0 {
              assert w[i] == LinksWithShapes(rest)[i - 1];
              assert |acc + [o]| + (i - 1) == |acc| + i;
            }
          }
        }
    }
  }

  /** `CollisionLinks` for a whole articulation: one entry per link with shapes, or the first TypeError. */
  lemma CollisionLinksCorrect(links: seq<RigidComponent>)
    ensures var r := CollisionLinks(links);
      && (r.Success? <==> forall i :: 0 <= i < |links| ==> Convertible(links[i]))
      && (r.Success? ==>
            var w := LinksWithShapes(links);
            |r.value| == |w| && forall i :: 0 <= i < |w| ==> ConvertComponent(w[i]) == Success(Some(r.value[i])))
  {
    CollisionLinksFromFailsIff([], links);
    CollisionLinksFromContents([], links);
  }

  /** The first constructor loop fails exactly when some link of some articulation does not convert. */
  lemma {:induction false} RegisterArticulationsFailsIff(s: WorldState, arts: seq<SimArticulation>, gravity: Geometry.Vec3)
    ensures RegisterArticulations(s, arts, gravity).error.None? <==> AllLinksConvertible(arts)
    decreases |arts|
  {
    if arts != [] {
      var rest := arts[1..];
      CollisionLinksCorrect(arts[0].links);
      assert forall k :: 1 <= k < |arts| ==> arts[k] == rest[k - 1];
      assert AllLinksConvertible(arts) <==>
        (forall i :: 0 <= i < |arts[0].links| ==> Convertible(arts[0].links[i])) && AllLinksConvertible(rest);
      var st := RegisterArticulation(s, arts[0], gravity);
      if st.error.None? {
        RegisterArticulationsFailsIff(st.state, rest, gravity);
      }
    }
  }

  /**
   * The first constructor loop only adds or replaces articulation models:
   * it keeps every other part of the world, keeps every name and the
   * models of names not in the scene, and on success adds exactly the
   * scene's names.
   */
  lemma {:induction false} RegisterArticulationsFrame(s: WorldState, arts: seq<SimArticulation>, gravity: Geometry.Vec3)
    ensures var st := RegisterArticulations(s, arts, gravity);
      && st.state == s.(articulations := st.state.articulations)
      && s.articulations.Keys <= st.state.articulations.Keys
      && (ValidState(s) ==> ValidState(st.state))
      && (forall n :: n in s.articulations && n !in ArticulationNames(arts) ==> st.state.articulations[n] == s.articulations[n])
      && (st.error.None? ==> st.state.articulations.Keys == s.articulations.Keys + ArticulationNames(arts))
    decreases |arts|
  {
    if arts != [] {
      var st := RegisterArticulation(s, arts[0], gravity);
      if st.error.None? {
        RegisterArticulationsFrame(st.state, arts[1..], gravity);
      }
    }
  }

  /** After a successful first loop, the model under each name is built from the last articulation of that name. */
  lemma {:induction false} RegisterArticulationsModels(s: WorldState, arts: seq<SimArticulation>, gravity: Geometry.Vec3)
    requires RegisterArticulations(s, arts, gravity).error.None?
    ensures var st := RegisterArticulations(s, arts, gravity);
      forall n :: n in ArticulationNames(arts) ==>
        && n in st.state.articulations
        && LastArticulationNamed(arts, n).Some?
        && var a := LastArticulationNamed(arts, n).value;
        && CollisionLinks(a.links) == Success(st.state.articulations[n].collisionLinks)
        && st.state.articulations[n] == NewModel(a, st.state.articulations[n].collisionLinks, gravity)
    decreases |arts|
  {
    if arts != [] {
      var rest := arts[1..];
      var st := RegisterArticulation(s, arts[0], gravity);
      RegisterArticulationsFailsIff(st.state, rest, gravity);
      RegisterArticulationsFrame(st.state, rest, gravity);
      RegisterArticulationsModels(st.state, rest, gravity);
      var t := RegisterArticulations(s, arts, gravity).state;
      forall n | n in ArticulationNames(arts)
        ensures n in t.articulations && LastArticulationNamed(arts, n).Some?
        ensures var a := LastArticulationNamed(arts, n).value;
          && CollisionLinks(a.links) == Success(t.articulations[n].collisionLinks)
          && t.articulations[n] == NewModel(a, t.articulations[n].collisionLinks, gravity)
      {
        ArticulationNamesMembership(rest, n);
        if n in ArticulationNames(rest) {
          assert LastArticulationNamed(arts, n) == LastArticulationNamed(rest, n);
        } else {
          assert n == ArticulationName(arts[0]);
          assert LastArticulationNamed(arts, n) == Some(arts[0]);
          assert t.articulations[n] == st.state.articulations[n];
        }
      }
    }
  }

  /** Marking fails exactly when a planned articulation is unregistered, with the IndexError of the first such. */
  lemma {:induction false} MarkAllPlannedFailsIff(s: WorldState, arts: seq<SimArticulation>)
    ensures var st := MarkAllPlanned(s, arts);
      && (st.error.None? <==> forall k :: 0 <= k < |arts| ==> ArticulationName(arts[k]) in s.articulations)
      && (forall k :: 0 <= k < |arts| && ArticulationName(arts[k]) !in s.articulations
            && (forall j :: 0 <= j < k ==> ArticulationName(arts[j]) in s.articulations)
            ==> st.error == Some(IndexError(ArticulationName(arts[k]))))
    decreases |arts|
  {
    if arts != [] {
      var rest := arts[1..];
      var st := MarkPlanned(s, ArticulationName(arts[0]));
      if st.error.None? {
        MarkAllPlannedFailsIff(st.state, rest);
        assert st.state.articulations == s.articulations;
        assert forall k :: 1 <= k < |arts| ==> arts[k] == rest[k - 1];
        forall k | 0 <= k < |arts| && ArticulationName(arts[k]) !in s.articulations
                   && (forall j :: 0 <= j < k ==> ArticulationName(arts[j]) in s.articulations)
          ensures MarkAllPlanned(s, arts).error == Some(IndexError(ArticulationName(arts[k])))
        {
          assert k >= 1;
          assert forall j :: 0 <= j < k - 1 ==> rest[j] == arts[j + 1];
        }
      }
    }
  }

  /** Marking touches only the planned set, keeps the world valid, and on success adds exactly the given names. */
  lemma {:induction false} MarkAllPlannedFrame(s: WorldState, arts: seq<SimArticulation>)
    ensures var st := MarkAllPlanned(s, arts);
      && st.state == s.(planned := st.state.planned)
      && (ValidState(s) ==> ValidState(st.state))
      && (st.error.None? ==> st.state.planned == s.planned + ArticulationNames(arts))
    decreases |arts|
  {
    if arts != [] {
      var st := MarkPlanned(s, ArticulationName(arts[0]));
      if st.error.None? {
        MarkAllPlannedFrame(st.state, arts[1..]);
      }
    }
  }

  /** The actor loop fails exactly when some actor lacks a rigid component or has a shape that does not convert. */
  lemma {:induction false} RegisterActorsFailsIff(s: WorldState, actors: seq<Actor>)
    ensures RegisterActors(s, actors).error.None? <==> AllActorsConvertible(actors)
    decreases |actors|
  {
    if actors != [] {
      var rest := actors[1..];
      assert forall k :: 1 <= k < |actors| ==> actors[k] == rest[k - 1];
      assert AllActorsConvertible(actors) <==>
        actors[0].rigid.Some? && Convertible(actors[0].rigid.value) && AllActorsConvertible(rest);
      if actors[0].rigid.Some? {
        ConvertibleIff(actors[0].rigid.value);
      }
      var st := RegisterActor(s, actors[0]);
      if st.error.None? {
        RegisterActorsFailsIff(st.state, rest);
      }
    }
  }

  /**
   * The actor loop touches only the objects and keeps the world valid; on
   * success it adds exactly the entry names of actors with shapes and keeps
   * every other object.
   */
  lemma {:induction false} RegisterActorsFrame(s: WorldState, actors: seq<Actor>)
    ensures var st := RegisterActors(s, actors);
      && st.state == s.(objects := st.state.objects)
      && (ValidState(s) ==> ValidState(st.state))
      && (st.error.None? ==>
            && st.state.objects.Keys == s.objects.Keys + EntryNames(actors)
            && forall n :: n in s.objects && n !in EntryNames(actors) ==> st.state.objects[n] == s.objects[n])
    decreases |actors|
  {
    if actors != [] {
      var rest := actors[1..];
      var st := RegisterActor(s, actors[0]);
      if actors[0].rigid.Some? {
        ConvertComponentCorrect(actors[0].rigid.value);
      }
      if st.error.None? {
        RegisterActorsFrame(st.state, rest);
        var head := if actors[0].rigid.Some? && |actors[0].rigid.value.collisionShapes| > 0
                    then {EntryName(actors[0].rigid.value)} else {};
        assert EntryNames(actors) == head + EntryNames(rest);
        assert st.state.objects.Keys == s.objects.Keys + head;
      }
    }
  }

  /** After a successful actor loop, each entry it added is the conversion of some actor's component. */
  lemma {:induction false} RegisterActorsContents(s: WorldState, actors: seq<Actor>)
    requires RegisterActors(s, actors).error.None?
    ensures var t := RegisterActors(s, actors).state;
      forall n :: n in EntryNames(actors) ==>
        n in t.objects &&
        exists k :: 0 <= k < |actors| && actors[k].rigid.Some?
          && ConvertComponent(actors[k].rigid.value) == Success(Some(t.objects[n]))
    decreases |actors|
  {
    if actors != [] {
      var rest := actors[1..];
      var st := RegisterActor(s, actors[0]);
      ConvertComponentCorrect(actors[0].rigid.value);
      RegisterActorsContents(st.state, rest);
      RegisterActorsFrame(st.state, rest);
      var t := RegisterActors(s, actors).state;
      RegisterActorsFrame(s, actors);
      forall n | n in EntryNames(actors)
        ensures n in t.objects
        ensures exists k :: 0 <= k < |actors| && actors[k].rigid.Some?
                  && ConvertComponent(actors[k].rigid.value) == Success(Some(t.objects[n]))
      {
        if n in EntryNames(rest) {
          var k :| 0 <= k < |rest| && rest[k].rigid.Some?
                   && ConvertComponent(rest[k].rigid.value) == Success(Some(t.objects[n]));
          assert actors[k + 1] == rest[k];
        } else {
          assert ConvertComponent(actors[0].rigid.value) == Success(Some(t.objects[n]));
        }
      }
    }
  }

  /**
   * Constructing a world fails exactly when a link or actor shape does not
   * convert (TypeError), an actor has no rigid component (AssertionError),
   * or a planned articulation is not in the scene (IndexError).
   */
  lemma BuildFailsIff(scene: Scene, planned: seq<SimArticulation>)
    ensures Build(EmptyWorld, scene, planned).error.None? <==>
      && AllLinksConvertible(scene.articulations)
      && (forall k :: 0 <= k < |planned| ==> ArticulationName(planned[k]) in ArticulationNames(scene.articulations))
      && AllActorsConvertible(scene.actors)
  {
    RegisterArticulationsFailsIff(EmptyWorld, scene.articulations, scene.gravity);
    RegisterArticulationsFrame(EmptyWorld, scene.articulations, scene.gravity);
    var a := RegisterArticulations(EmptyWorld, scene.articulations, scene.gravity);
    if a.error.None? {
      MarkAllPlannedFailsIff(a.state, planned);
      MarkAllPlannedFrame(a.state, planned);
      var p := MarkAllPlanned(a.state, planned);
      if p.error.None? {
        RegisterActorsFailsIff(p.state, scene.actors);
      }
    }
  }

  /**
   * A world built from a scene holds one model per scene articulation,
   * plans exactly the requested ones, holds one object per actor with
   * shapes, each the conversion of a scene actor's component, and nothing
   * attached, no collision rules and no warnings.
   */
  lemma BuildFromScene(scene: Scene, planned: seq<SimArticulation>)
    requires Build(EmptyWorld, scene, planned).error.None?
    ensures var t := Build(EmptyWorld, scene, planned).state;
      && ValidState(t)
      && t.articulations.Keys == ArticulationNames(scene.articulations)
      && t.planned == ArticulationNames(planned)
      && t.objects.Keys == EntryNames(scene.actors)
      && t.attached == map[] && t.acm == EmptyAcm && t.warnings == []
      && forall n :: n in t.objects ==>
           exists k :: 0 <= k < |scene.actors| && scene.actors[k].rigid.Some?
             && ConvertComponent(scene.actors[k].rigid.value) == Success(Some(t.objects[n]))
  {
    RegisterArticulationsFrame(EmptyWorld, scene.articulations, scene.gravity);
    var a := RegisterArticulations(EmptyWorld, scene.articulations, scene.gravity);
    MarkAllPlannedFrame(a.state, planned);
    var p := MarkAllPlanned(a.state, planned);
    RegisterActorsFrame(p.state, scene.actors);
    RegisterActorsContents(p.state, scene.actors);
  }

  lemma {:induction false} LastArticulationNamedDistinct(arts: seq<SimArticulation>, k: nat)
    requires k < |arts|
    requires forall i, j :: 0 <= i < j < |arts| ==> ArticulationName(arts[i]) != ArticulationName(arts[j])
    ensures LastArticulationNamed(arts, ArticulationName(arts[k])) == Some(arts[k])
    decreases |arts|
  {
    var n := ArticulationName(arts[k]);
    var rest := arts[1..];
    if k == 0 {
      ArticulationNamesMembership(rest, n);
    } else {
      assert rest[k - 1] == arts[k];
      LastArticulationNamedDistinct(rest, k - 1);
    }
  }

  /**
   * When the scene's entities have distinct ids, each scene articulation's
   * model carries its own link and joint names, its link entries, the
   * scene's gravity, and its root pose and joint positions.
   */
  lemma BuildMirrorsArticulations(scene: Scene, planned: seq<SimArticulation>, k: nat)
    requires Distinct(SceneIds(scene))
    requires Build(EmptyWorld, scene, planned).error.None?
    requires k < |scene.articulations|
    ensures var t := Build(EmptyWorld, scene, planned).state;
      var art := scene.articulations[k];
      && ArticulationName(art) in t.articulations
      && var m := t.articulations[ArticulationName(art)];
      && CollisionLinks(art.links) == Success(m.collisionLinks)
      && m.linkNames == LinkNames(art.links) && m.jointNames == art.activeJointNames
      && m.gravity == scene.gravity && m.basePose == art.rootPose && m.qpos == art.qpos
  {
    var arts := scene.articulations;
    SceneNamesUnique(scene);
    forall i, j | 0 <= i < j < |arts| ensures ArticulationName(arts[i]) != ArticulationName(arts[j]) {
      assert SceneNames(scene)[i] == ArticulationName(arts[i]);
      assert SceneNames(scene)[j] == ArticulationName(arts[j]);
    }
    LastArticulationNamedDistinct(arts, k);
    ArticulationNamesMembership(arts, ArticulationName(arts[k]));
    RegisterArticulationsModels(EmptyWorld, arts, scene.gravity);
    var a := RegisterArticulations(EmptyWorld, arts, scene.gravity);
    MarkAllPlannedFrame(a.state, planned);
    var p := MarkAllPlanned(a.state, planned);
    RegisterActorsFrame(p.state, scene.actors);
  }

  /** A name no actor with shapes has as its entry name is not among the loop's entry names. */
  lemma {:induction false} EntryNamesAvoid(actors: seq<Actor>, n: string)
    requires forall j :: 0 <= j < |actors| && actors[j].rigid.Some? && |actors[j].rigid.value.collisionShapes| > 0 ==>
      EntryName(actors[j].rigid.value) != n
    ensures n !in EntryNames(actors)
    decreases |actors|
  {
    if actors != [] {
      var rest := actors[1..];
      forall j | 0 <= j < |rest| && rest[j].rigid.Some? && |rest[j].rigid.value.collisionShapes| > 0
        ensures EntryName(rest[j].rigid.value) != n
      {
        assert actors[j + 1] == rest[j];
      }
      EntryNamesAvoid(rest, n);
    }
  }

  /**
   * After a successful actor loop, an actor with shapes whose entry name no
   * later actor with shapes shares has its own conversion stored under that
   * name.
   */
  lemma {:induction false} RegisterActorsLastEntry(s: WorldState, actors: seq<Actor>, k: nat)
    requires RegisterActors(s, actors).error.None?
    requires k < |actors| && actors[k].rigid.Some? && |actors[k].rigid.value.collisionShapes| > 0
    requires forall j :: k < j < |actors| && actors[j].rigid.Some? && |actors[j].rigid.value.collisionShapes| > 0 ==>
      EntryName(actors[j].rigid.value) != EntryName(actors[k].rigid.value)
    ensures var t := RegisterActors(s, actors).state;
      var n := EntryName(actors[k].rigid.value);
      n in t.objects && ConvertComponent(actors[k].rigid.value) == Success(Some(t.objects[n]))
    decreases |actors|
  {
    var rest := actors[1..];
    var st := RegisterActor(s, actors[0]);
    if k == 0 {
      var comp := actors[0].rigid.value;
      var n := EntryName(comp);
      ConvertComponentCorrect(comp);
      RegisterActorsFrame(st.state, rest);
      forall j | 0 <= j < |rest| && rest[j].rigid.Some? && |rest[j].rigid.value.collisionShapes| > 0
        ensures EntryName(rest[j].rigid.value) != n
      {
        assert actors[j + 1] == rest[j];
      }
      EntryNamesAvoid(rest, n);
    } else {
      forall j | k - 1 < j < |rest| && rest[j].rigid.Some? && |rest[j].rigid.value.collisionShapes| > 0
        ensures EntryName(rest[j].rigid.value) != EntryName(rest[k - 1].rigid.value)
      {
        assert actors[j + 1] == rest[j];
      }
      RegisterActorsLastEntry(st.state, rest, k - 1);
    }
  }

  /** Whether each actor's rigid component is a rigid body of the actor's own entity. */
  predicate ActorsOwnComponents(actors: seq<Actor>)
  {
    forall j :: 0 <= j < |actors| && actors[j].rigid.Some? ==>
      actors[j].rigid.value.kind.RigidBody? && actors[j].rigid.value.entity == actors[j].entity
  }

  /**
   * When the scene's entities have distinct ids and each actor carries a
   * rigid body of its own entity, every actor with shapes is stored under
   * its unique name as exactly the conversion of its own component.
   */
  lemma BuildMirrorsActors(scene: Scene, planned: seq<SimArticulation>, k: nat)
    requires Distinct(SceneIds(scene))
    requires ActorsOwnComponents(scene.actors)
    requires Build(EmptyWorld, scene, planned).error.None?
    requires k < |scene.actors|
    requires scene.actors[k].rigid.Some? && |scene.actors[k].rigid.value.collisionShapes| > 0
    ensures var t := Build(EmptyWorld, scene, planned).state;
      var actor := scene.actors[k];
      && EntityName(actor.entity) in t.objects
      && ConvertComponent(actor.rigid.value) == Success(Some(t.objects[EntityName(actor.entity)]))
  {
    var actors := scene.actors;
    var na := |scene.articulations|;
    SceneNamesUnique(scene);
    forall j | k < j < |actors| && actors[j].rigid.Some? && |actors[j].rigid.value.collisionShapes| > 0
      ensures EntryName(actors[j].rigid.value) != EntryName(actors[k].rigid.value)
    {
      assert SceneNames(scene)[na + j] == EntityName(actors[j].entity);
      assert SceneNames(scene)[na + k] == EntityName(actors[k].entity);
    }
    var a := RegisterArticulations(EmptyWorld, scene.articulations, scene.gravity);
    var p := MarkAllPlanned(a.state, planned);
    RegisterActorsLastEntry(p.state, actors, k);
  }
}
