# SAPIEN-to-mplib conversion layer, modelled in Dafny

This project models the part of mplib that turns a SAPIEN simulation scene
into an mplib planning world and keeps the two in step
(`mplib/sapien_utils/conversion.py`):

- **Unique names** (`convert_object_name`). An articulation is named
  `<name>_<per_scene_id of its root entity>`. An entity is named
  `<name>_<per_scene_id>`. Any other object is refused. The part after the
  last `_` is the id in decimal, so different ids always give different
  names.
- **Shape conversion** (`convert_physx_component`). This is a loop over a
  component's collision shapes. For each shape it appends a geometry and a
  local pose. Boxes double their half-size. Capsules and cylinders turn by a
  quarter turn about y. Convex meshes scale their vertices per axis. A plane
  becomes a halfspace at the identity pose. An unknown shape class is a
  TypeError. The component has no entry exactly when it has no shapes.
- **World construction** (`SapienPlanningWorld.__init__`). Every
  articulation becomes a model, then the planned articulations are marked,
  then every actor with shapes becomes an object.
- **Re-synchronisation** (`update_from_simulation`). Articulations take the
  scene's root pose and joint positions; a scene articulation the world does
  not know is a RuntimeError. Then each actor is handled. An attached object
  follows its link. A registered object moves to the entity's pose and keeps
  its shapes. An unknown entity with shapes only draws a warning.
- **Pairwise queries** (`_get_collision_obj`, `check_collision_between`,
  `distance_between`). An articulation argument delegates to its model. Two
  objects reach the narrow phase only when the allowed-collision matrix has
  no entry for the pair, or NEVER.
- **Name-resolving overloads**: entity and articulation arguments become
  unique names, link components become link names, and `attach_*` turn a
  link component into its index among the model's link names.
- **The planner adapter** (`SapienPlanner.__init__`). It needs exactly one
  planned articulation and an end effector that is one of its links. It
  builds the name-to-index dictionaries, concatenates the joint limits,
  defaults the velocity and acceleration limits, warns about initial
  collisions, checks the limit lengths and computes the mask of joints whose
  values repeat every full turn.

Layout: `results.dfy` (Option, Result, the Python exceptions),
`geometry.dfy` (exact poses, composition, inverse, the quarter turn),
`sapien.dfy` (scene, entities, components, shapes), `fcl.dfy` (FCL
geometries, the allowed-collision matrix, query results), `naming.dfy`,
`conversion.dfy`, `world.dfy` (the `SapienPlanningWorld` class and the
functions its methods are proved against), `build_properties.dfy`,
`sync_properties.dfy`, `queries.dfy` and `planner.dfy`.

The world is a class whose fields are the maps of the C++ `PlanningWorld`
(articulations, planned names, objects, attached objects, the matrix, and
the warnings issued). Its methods run the source's loops. Each method is
proved to produce exactly the `Step` that a functional description
(`Build`, `Update`, `SyncActor`, …) gives for the old state. The properties
are proved as lemmas about those functions.

The C++ services this layer calls but does not define are fields of a
`Backend` value: FCL `collide` and `distance`, a model's own collision and
distance queries, the default distance record, a link's world pose,
`check_robot_collision`, and the joint indices of a move group.

Where the code does something a reader might not expect, the model
follows the code:

- A registered object is overwritten with its old shapes and shape poses at
  the entity's new pose. It is not converted afresh. The docstring's "shape's
  local_pose is not updated" agrees with this.
- Re-synchronisation fails when the scene has an articulation the world
  lacks. An articulation the world has but the scene no longer has is not
  noticed.
- An ACM entry of NEVER lets the pair be checked, like a missing entry.
  ALWAYS and CONDITIONAL both skip the pair.
- The `NotImplementedError` branches of `check_collision_between` and
  `distance_between` cannot be reached: `_get_collision_obj` has already
  raised a RuntimeError, or an AttributeError for an object without a
  `name`, for any argument that is neither an articulation nor an entity.
- `link_name_2_idx` keeps the last index of a repeated name, while
  `list.index` in `attach_*` takes the first.
- During re-synchronisation an unregistered entity without a rigid
  component fails with an AttributeError, because its shapes are read from
  a missing component.

Assumptions about the C++ superclass, which is not part of this model:
`add_object` and `add_articulation` store under the entry's name, replacing
an earlier entry; `set_articulation_planned` refuses an unregistered name
(modelled as IndexError); `set_allowed_collision` sets the entry for both
orders of the pair; a model built from the exported URDF carries the
articulation's unique name.

## Model

| member | source | states |
|---|---|---|
| Naming.ConvertObjectName | mplib/sapien_utils/conversion.py:54-67 | Fails (NotImplementedError) exactly for an object that is neither an articulation nor an entity; otherwise the name splits at its last `_` into the declared name and the decimal id (the root entity's id for an articulation), and the id parses back |
| Naming.ObjectNameInjective | mplib/sapien_utils/conversion.py:63-65 | Two unique names are equal exactly when their declared names and ids are equal |
| Naming.DistinctIdsDistinctNames | mplib/sapien_utils/conversion.py:54-67 | Objects with different per-scene ids never get the same name |
| Naming.SceneNamesUnique | mplib/sapien_utils/conversion.py:54-67 | If the ids in a scene are distinct, so are the names of all its articulations and actors |
| Naming.NatToStringInjective | mplib/sapien_utils/conversion.py:63-65 | The decimal text of an id determines the id |
| Conversion.ConvertShapeMeshes | mplib/sapien_utils/conversion.py:326-347 | A convex mesh becomes a convex geometry with one vertex per mesh vertex, each scaled per axis by the shape's scale, the mesh's triangles as faces and the local pose kept; a triangle mesh becomes a BVH model over its own vertices and triangles at its local pose |
| Conversion.ConvertShape | mplib/sapien_utils/conversion.py:316-350 | The per-shape rule fails exactly for a shape of an unknown class, with a TypeError naming that class |
| Conversion.ConvertShapeKeepsSolid | mplib/sapien_utils/conversion.py:316-343 | A converted box, capsule, cylinder, sphere or plane occupies the same points of the body frame as the PhysX shape it came from |
| Conversion.RoundShapeAxisAligned | mplib/sapien_utils/conversion.py:321-333 | For capsules and cylinders the FCL z-axis lands on the PhysX x-axis, the radius is copied and `lz` is twice the half-length |
| Conversion.PlaneOnZAxis | mplib/sapien_utils/conversion.py:334-341 | A plane whose normal is turned onto z at height d becomes the halfspace z ≤ d at the identity pose |
| Conversion.ConvertShapesCorrect | mplib/sapien_utils/conversion.py:314-351 | The shape loop succeeds exactly when no shape is unknown; then both lists have one element per shape, in input order, each the per-shape rule's result; otherwise the error is the TypeError of the first unknown shape |
| Conversion.FailureOfPrefixIsFinal | mplib/sapien_utils/conversion.py:349-350 | Once a prefix of the shapes fails, the whole list fails with the same error |
| Conversion.ConvertComponentCorrect | mplib/sapien_utils/conversion.py:303-363 | No entry exactly when there are no shapes; a TypeError exactly when some shape is unknown; otherwise an entry named by the link's plain name or the entity's unique name, at the entity's pose, with one converted shape per input shape |
| Conversion.ConvertPhysxComponent | mplib/sapien_utils/conversion.py:303-363 | The in-place loop (append the local pose, then overwrite it for capsules, cylinders and planes) returns what `ConvertComponent` describes |
| Fcl.SetEntrySymmetric | mplib/sapien_utils/conversion.py:740-773 | Setting an entry answers ALWAYS or NEVER for the pair in both orders and keeps a symmetric matrix symmetric |
| PlanningWorld.SapienPlanningWorld.constructor | mplib/sapien_utils/conversion.py:81 | The world starts empty, with an empty matrix |
| PlanningWorld.SapienPlanningWorld.AddFclObject | mplib/sapien_utils/conversion.py:471-472 | The entry is stored under its own name and nothing else changes |
| PlanningWorld.SapienPlanningWorld.AddEntity | mplib/sapien_utils/conversion.py:462-470 | An entity without a rigid component is an AssertionError; otherwise its converted entry, if any, is added |
| PlanningWorld.SapienPlanningWorld.SetArticulationPlanned | mplib/sapien_utils/conversion.py:392-416 | A registered articulation, given as itself or by name, joins or leaves the planned set, so `is_articulation_planned` then answers the flag given; an unregistered name fails and changes nothing |
| PlanningWorld.SapienPlanningWorld.IsArticulationPlanned | mplib/sapien_utils/conversion.py:366-390 | An articulation, given as itself or by name, is planned exactly when its unique name or the name given is in the planned set; in a valid world only a registered articulation can be |
| PlanningWorld.SapienPlanningWorld.HasObject | mplib/sapien_utils/conversion.py:418-441 | An object, given as an entity or by name, is present exactly when its unique name or the name given is stored; in a valid world that entry carries the same name |
| PlanningWorld.SapienPlanningWorld.IsObjectAttached | mplib/sapien_utils/conversion.py:497-519 | An object, given as an entity or by name, is attached exactly when its unique name or the name given is among the attached bodies; in a valid world it rides on a registered articulation |
| PlanningWorld.SapienPlanningWorld.SetAllowedCollision | mplib/sapien_utils/conversion.py:740-773 | The matrix gets the entry for the two resolved names and nothing else changes; a component that is not an articulation link is refused by the binding with a TypeError and nothing changes |
| PlanningWorld.SapienPlanningWorld.CollectCollisionLinks | mplib/sapien_utils/conversion.py:92-96 | The loop over links returns the `collision_links` list `CollisionLinks` describes |
| PlanningWorld.SapienPlanningWorld.Populate | mplib/sapien_utils/conversion.py:84-126 | The three construction loops leave exactly the state and error `Build` gives, and the world stays valid even when a loop fails |
| PlanningWorld.SapienPlanningWorld.AddArticulations | mplib/sapien_utils/conversion.py:87-112 | The articulation loop leaves exactly the state and error `RegisterArticulations` gives, changing only the articulations and keeping the world valid |
| PlanningWorld.SapienPlanningWorld.MarkPlannedArticulations | mplib/sapien_utils/conversion.py:114-115 | The marking loop leaves exactly the state and error `MarkAllPlanned` gives, changing only the planned set and keeping the world valid |
| PlanningWorld.SapienPlanningWorld.AddActors | mplib/sapien_utils/conversion.py:117-126 | The actor loop leaves exactly the state and error `RegisterActors` gives, changing only the objects and keeping the world valid |
| PlanningWorld.SapienPlanningWorld.SyncArticulationInPlace | mplib/sapien_utils/conversion.py:137-146 | One articulation step matches `SyncArticulation` and keeps the world valid |
| PlanningWorld.SapienPlanningWorld.SyncActorInPlace | mplib/sapien_utils/conversion.py:148-182 | One actor step matches `SyncActor` and keeps the world valid |
| PlanningWorld.SapienPlanningWorld.UpdateFromSimulation | mplib/sapien_utils/conversion.py:128-182 | The two loops leave exactly the state and error `Update` gives, and the world stays valid |
| PlanningWorld.SapienPlanningWorld.SyncSceneArticulations | mplib/sapien_utils/conversion.py:137-146 | The articulation loop leaves exactly the state and error `SyncArticulations` gives, and the world stays valid |
| PlanningWorld.SapienPlanningWorld.SyncSceneActors | mplib/sapien_utils/conversion.py:148-182 | The actor loop leaves exactly the state and error `SyncActors` gives, and the world stays valid |
| PlanningWorld.SyncActor | mplib/sapien_utils/conversion.py:148-182 | One actor never changes which entries exist, the articulations, the planned set or the matrix, and keeps the world valid |
| PlanningWorld.SyncActors | mplib/sapien_utils/conversion.py:148-182 | The actor loop never changes which entries exist, the articulations, the planned set or the matrix |
| PlanningWorld.SyncArticulationsKeepsShape | mplib/sapien_utils/conversion.py:137-146 | The articulation loop changes only articulation models, never which ones exist |
| PlanningWorld.ObjectKey | mplib/sapien_utils/conversion.py:439-441 | An entity argument stands for its `convert_object_name`, whose id parses back; a name stands for itself |
| PlanningWorld.ArticulationKey | mplib/sapien_utils/conversion.py:388-390 | An articulation argument stands for its `convert_object_name`, whose id parses back; a name stands for itself |
| PlanningWorld.PartyKey | mplib/sapien_utils/conversion.py:765-772 | An entity stands for its unique name, an articulation link for its plain name, a string for itself; any other component is refused by the binding with a TypeError |
| PlanningWorld.IndexOf | mplib/sapien_utils/conversion.py:585 | `list.index`: the first position holding the name, or a ValueError when it is absent |
| PlanningWorld.ResolveAttachLink | mplib/sapien_utils/conversion.py:578-738 | For `attach_object`, `attach_sphere`, `attach_box` and `attach_mesh`: a link index passes through; an articulation link component becomes the first index of its name among the named model's links; an unknown articulation is an AttributeError, an unknown link a ValueError, and a component that is not an articulation link is refused by the binding with a TypeError |
| PlanningWorld.AttachObjectRequest | mplib/sapien_utils/conversion.py:565-588 | Fails exactly when the link cannot be resolved (AttributeError, ValueError, or the binding's TypeError for a component that is not an articulation link) or a touch link is such a component (TypeError); otherwise the object and articulation names are their unique names or the strings given, a component's link id is the first link of its name, an index passes through, and every touch link becomes its name, in order |
| BuildProperties.ConvertibleIff | mplib/sapien_utils/conversion.py:125 | A component converts without error exactly when none of its shapes is unknown |
| BuildProperties.CollisionLinksFromFailsIff | mplib/sapien_utils/conversion.py:92-96 | The link walk succeeds exactly when every link converts |
| BuildProperties.CollisionLinksFromContents | mplib/sapien_utils/conversion.py:92-96 | A successful link walk appends one entry per link with shapes, in order, each the conversion of its link |
| BuildProperties.CollisionLinksCorrect | mplib/sapien_utils/conversion.py:92-96 | `collision_links` holds, in order, the entries of exactly the links that have shapes |
| BuildProperties.RegisterArticulationsFailsIff | mplib/sapien_utils/conversion.py:87-112 | The articulation loop fails exactly when some link of some articulation does not convert |
| BuildProperties.RegisterArticulationsFrame | mplib/sapien_utils/conversion.py:87-112 | The articulation loop touches only articulation models, keeps existing names and the models of names not in the scene, keeps validity, and on success adds exactly the scene's articulation names |
| BuildProperties.RegisterArticulationsModels | mplib/sapien_utils/conversion.py:87-112 | Each registered model is built from the last scene articulation of that name: its link entries, names, gravity, root pose and joint positions |
| BuildProperties.MarkAllPlannedFailsIff | mplib/sapien_utils/conversion.py:114-115 | Marking fails exactly when a planned articulation is unregistered, with the IndexError of the first such |
| BuildProperties.MarkAllPlannedFrame | mplib/sapien_utils/conversion.py:114-115 | Marking touches only the planned set, keeps validity, and on success adds exactly the planned articulations' names |
| BuildProperties.RegisterActorsFailsIff | mplib/sapien_utils/conversion.py:117-126 | The actor loop fails exactly when some actor lacks a rigid component or has an unknown shape |
| BuildProperties.RegisterActorsFrame | mplib/sapien_utils/conversion.py:117-126 | The actor loop touches only the objects and keeps validity; on success the object names are exactly the old ones plus the entry names of actors with shapes, and other objects stay |
| BuildProperties.RegisterActorsContents | mplib/sapien_utils/conversion.py:117-126 | After a successful actor loop every added entry is present and is the conversion of some actor's component |
| BuildProperties.BuildFailsIff | mplib/sapien_utils/conversion.py:71-126 | Construction fails exactly when some link does not convert, some planned articulation is not in the scene, or some actor does not convert |
| BuildProperties.BuildFromScene | mplib/sapien_utils/conversion.py:71-126 | A built world is valid, holds exactly the scene's articulations, the planned names and the entries of actors with shapes, and nothing attached, an empty matrix and no warnings |
| BuildProperties.RegisterActorsLastEntry | mplib/sapien_utils/conversion.py:117-126 | After a successful actor loop, an actor with shapes whose entry name no later actor with shapes shares is stored under that name as exactly its own conversion |
| BuildProperties.BuildMirrorsActors | mplib/sapien_utils/conversion.py:117-126 | With distinct ids and each actor carrying a rigid body of its own entity, every actor with shapes is stored under its unique name as exactly its own component's conversion |
| BuildProperties.BuildMirrorsArticulations | mplib/sapien_utils/conversion.py:87-112 | With distinct ids, each scene articulation's model carries its own link entries, link and joint names, gravity, root pose and joint positions |
| SyncProperties.SyncArticulationsFailsIff | mplib/sapien_utils/conversion.py:137-146 | The articulation pass fails exactly when some scene articulation is unregistered, with the RuntimeError of the first such, and never changes which models exist |
| SyncProperties.SyncArticulationsPointwise | mplib/sapien_utils/conversion.py:137-141 | A successful articulation pass gives each model the root pose and joint positions of the last scene articulation with its name |
| SyncProperties.SyncActorsFailsIff | mplib/sapien_utils/conversion.py:148-176 | The actor pass fails exactly when some actor is unknown and has no rigid component, with the AttributeError of the first such |
| SyncProperties.SyncActorEffect | mplib/sapien_utils/conversion.py:148-182 | One actor moves its attached body or its registered object, or adds one warning when it is unknown and has shapes; nothing else changes |
| SyncProperties.SyncBodyTwice | mplib/sapien_utils/conversion.py:152-158 | Re-attaching a body to the same link at a second entity pose gives what the second pose alone gives |
| SyncProperties.SyncActorsPointwise | mplib/sapien_utils/conversion.py:148-182 | A successful actor pass leaves every object, attached body and warning as `SyncedActors` describes entry by entry |
| SyncProperties.SyncActorsKeepShapes | mplib/sapien_utils/conversion.py:159-168 | The actor pass keeps every entry's name, shapes and shape poses, and every attached body's link and touch links |
| SyncProperties.UpdateFailsIff | mplib/sapien_utils/conversion.py:128-182 | `update_from_simulation` fails exactly when a scene articulation is unregistered or an unknown actor has no rigid component, and an unregistered articulation gives the RuntimeError of the first such |
| SyncProperties.UpdateKeepsShapes | mplib/sapien_utils/conversion.py:128-168 | A pass, even a failed one, never adds or removes an entry and never changes shapes or shape poses |
| SyncProperties.UpdatePointwise | mplib/sapien_utils/conversion.py:128-182 | A successful pass leaves exactly the world `Synced` describes |
| SyncProperties.UpdateMovesObjects | mplib/sapien_utils/conversion.py:159-168 | A registered, unattached object takes the pose of the last scene entity with its name, or stays as it was when there is none |
| SyncProperties.UpdateAttachedFollowsEntity | mplib/sapien_utils/conversion.py:152-158 | With `update_attached_object`, an attached body's entry ends at its entity's pose whenever the link pose is a rigid motion |
| SyncProperties.SyncedArticulationsTwice | mplib/sapien_utils/conversion.py:137-141 | Syncing articulations twice from the same scene is the same as once |
| SyncProperties.UpdateIdempotent | mplib/sapien_utils/conversion.py:128-182 | A second pass over the same scene succeeds and changes nothing except adding the same stray-entity warnings again |
| Queries.GetCollisionObj | mplib/sapien_utils/conversion.py:282-300 | Succeeds exactly for a registered articulation (its model) or a registered entity (its entry); anything else is a RuntimeError with the object's name, or an AttributeError for an object that has no `name` |
| Queries.CheckCollisionBetween | mplib/sapien_utils/conversion.py:184-230 | Fails exactly when an argument is unregistered, with the error `_get_collision_obj` raises for the first such |
| Queries.DistanceBetween | mplib/sapien_utils/conversion.py:232-280 | Fails exactly when an argument is unregistered, with the error `_get_collision_obj` raises for the first such; otherwise answers a scalar exactly when `return_distance_only` is set |
| Queries.ArticulationAnswers | mplib/sapien_utils/conversion.py:203-259 | If either argument is an articulation, the first such argument's model answers both the collision and the distance query, with the other side as target |
| Queries.ObjectPairCollision | mplib/sapien_utils/conversion.py:209-228 | Two objects give one record naming both exactly when the matrix lets the pair be checked and the narrow phase finds contact, otherwise an empty list |
| Queries.ObjectPairDistance | mplib/sapien_utils/conversion.py:260-276 | Two objects are at the narrow phase's distance when the pair is checked, otherwise at the default record's distance |
| Queries.DefaultMatrixChecksEveryPair | mplib/sapien_utils/conversion.py:189 | The default matrix lets every object pair reach the narrow phase |
| Queries.ObjectPairSymmetric | mplib/sapien_utils/conversion.py:213-215 | With a symmetric matrix and an order-blind narrow phase, swapping two objects does not change whether a collision is reported, and the one record names the two objects in swapped order |
| Queries.DistanceOnlyIsMinDistance | mplib/sapien_utils/conversion.py:280 | The scalar answer is the `min_distance` of the full answer |
| Queries.AllowedPairReportsNothing | mplib/sapien_utils/conversion.py:765-773 | After allowing two objects, checking them in either order against the world's matrix reports nothing; after disallowing, it reports the narrow phase's verdict |
| Planner.FullTurnFits | mplib/sapien_utils/conversion.py:852-854 | A range is wider than 2π exactly when two joint values a full turn apart both fit in it |
| Planner.FlattenKeepsRows | mplib/sapien_utils/conversion.py:817 | Concatenation keeps every limit row and adds none |
| Planner.Concatenate | mplib/sapien_utils/conversion.py:817 | `np.concatenate` fails (ValueError) exactly on an empty list, and otherwise has one row per input row |
| Planner.EquivJointMask | mplib/sapien_utils/conversion.py:851-854 | No joint types is a TypeError; otherwise the mask exists exactly when the two sides broadcast (else a ValueError), and each element is "revolute type" and "range wider than 2π" for the paired joint |
| Planner.EquivJointMaskMarksFullTurns | mplib/sapien_utils/conversion.py:851-854 | With one limit row per joint, the mask marks exactly the revolute joints whose range holds two values a full turn apart |
| Planner.IndexMap | mplib/sapien_utils/conversion.py:802-807 | The dictionary loop maps every name, and only names in the list, to the last position holding it |
| Planner.LastIndexMapOfDistinct | mplib/sapien_utils/conversion.py:802-807 | For a list without repeats each name maps to its own index |
| Planner.LastIndexMapUnique | mplib/sapien_utils/conversion.py:802-807 | The dictionary is determined by the list |
| Planner.SapienPlanner.Init | mplib/sapien_utils/conversion.py:793-854 | NotImplementedError unless exactly one articulation is planned; then the robot is that articulation, the names are its link and joint names, a move group that is not a link is an AssertionError, and otherwise both dictionaries are built and the rest is configured; the planning world's maps are not changed |
| Planner.SapienPlanner.LoadRobot | mplib/sapien_utils/conversion.py:796-807 | The robot is the one planned articulation, and the dictionaries map each joint and link name to its last index |
| Planner.SapienPlanner.Configure | mplib/sapien_utils/conversion.py:812-854 | Sets the move group and its joints and joint types; no joint limits is a ValueError; otherwise the limits, the defaulted vel/acc limits, the move group's link index from the link dictionary (the last link of that name) and one warning per initial collision are set, then unequal lengths are an AssertionError and a mask that cannot be formed a TypeError or ValueError |
| Planner.SapienPlanner.SetLimits | mplib/sapien_utils/conversion.py:817-823 | No limit arrays is a ValueError; otherwise the concatenated limits and the given or defaulted vel/acc limits are stored |
| Planner.SapienPlanner.CheckLimitsAndMask | mplib/sapien_utils/conversion.py:839-854 | Unequal vel/acc/move-group lengths, or more move-group joints than limit rows, are an AssertionError; otherwise the mask is stored, or its TypeError (no joint types) or ValueError (sides that do not broadcast) raised |
| Planner.SapienPlanner.WarnInitialCollisions | mplib/sapien_utils/conversion.py:825-837 | The warning loop appends exactly `InitialCollisionWarnings` |
| Planner.SapienPlanner.UpdateFromSimulation | mplib/sapien_utils/conversion.py:858-871 | Passes on to the planning world, with its contract |

## Left out

- Floating point: poses are exact reals, `euler2quat(0, π/2, 0)` is the exact quarter turn about y, and the 2π test uses the double nearest to 2π with exact comparison.
- Rotations are written as matrices; no quaternion form of a pose is modelled.
- The C++ `PlanningWorld` superclass: attach and detach themselves (touch-link discovery, matrix updates, detach's result), `remove_object`, `detach_object`, `get_*` lookups and `check_robot_collision`. Only the argument normalisation in front of them is modelled; `remove_object` and `detach_object` only resolve their argument with `ObjectKey`.
- `attach_mesh` passes a mesh path on; its link resolution is the same as `attach_sphere` and `attach_box`, and reading the mesh file is I/O.
- URDF and SRDF export, `ArticulatedModel.create_from_urdf_string` and the pinocchio model: the model of an articulation is built from the scene's own link names, joint names, joint types and limits.
- FCL narrow phase, `BVHModel` construction and the models' own collision and distance queries are opaque `Backend` functions; `check_collision_with` is given the matrix it is passed.
- `set_move_group` and the move group's joint indices come from the backend; `OMPLPlanner` construction and the planner's `acm` alias are not modelled.
- Warning text, ANSI colour codes and `stacklevel`: a warning is an appended `Diagnostic`. The exception messages are not modelled except where the contract names the object.
- The `_sim_scene` reference is not stored; the scene is passed to `UpdateFromSimulation` instead.
- An attached body holds a pointer to its articulation model in C++; here it holds the model's name, and the link pose is read from the synchronised model.
- Planner.SapienPlanner.Init: `self.robot.set_move_group(...)` stores the move group on the robot model the planning world holds; the model does not store it there, so its contract says the world is unchanged where the source changes that model's move group.
- Planner.SapienPlanner.Init: the assertion message and the link names it prints are not modelled, only that an AssertionError is raised.
- Planner.SapienPlanner.Configure: when there are no joint limits, the contract says only that a ValueError is raised, not which fields were set before it.
- PlanningWorld.SyncActor, SyncProperties.SyncedObjects: in C++ an object attached by name may share its FCL object with the world's object entry of the same name, so moving the attached body also moves that entry. The model keeps the attached body's entry and the object entry as separate values, so such an entry in `objects` keeps its old pose after a re-synchronisation, and queries on that entity see the old pose.
- The scene types admit inputs SAPIEN never produces: an articulation link of kind `RigidBody`, an actor whose rigid component is an articulation link, and joint types and limit arrays of different lengths. On them the model applies the code's own `isinstance` rule and numpy's broadcasting rule; no well-formedness predicate excludes them. A component that is not an articulation link, given as a link, touch link or collision party, is passed on as the code does and refused by the binding with a TypeError, whose message is not modelled.
- PlanningWorld.ResolveAttachLink: the AttributeError for an unknown articulation is modelled with the articulation's name, not Python's message about `NoneType`.
