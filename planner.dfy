/**
 * `SapienPlanner`: the planner adapter built on a `SapienPlanningWorld`.
 * Its constructor checks that exactly one articulation is planned and that
 * the move group is one of its links, builds the name-to-index maps,
 * gathers joint types and limits, checks the limit lengths and computes
 * the mask of joints whose values repeat every full turn.
 */
module Planner {
  import opened Results
  import opened Sapien
  import opened Fcl
  import opened Naming
  import opened PlanningWorld

  /** `2 * np.pi`: the double nearest to 2π, written out exactly. */
  const TwoPi: real := 6.28318530717958623199592693708837032318115234375

  /** `t.startswith("JointModelR")`: the revolute joint models. */
  predicate IsRevoluteType(t: string)
  {
    |t| >= 11 && t[..11] == "JointModelR"
  }

  /** A limit row whose range is wider than a full turn. */
  predicate ExceedsFullTurn(l: JointLimit)
  {
    l.upper - l.lower > TwoPi
  }

  /** Joint values `q` and `q + 2π` both lie in the range, the upper one strictly inside. */
  predicate FullTurnFitsAt(l: JointLimit, q: real)
  {
    l.lower <= q && q + TwoPi < l.upper
  }

  /** A range is wider than a full turn exactly when two values a full turn apart both fit. */
  lemma FullTurnFits(l: JointLimit)
    ensures ExceedsFullTurn(l) <==> exists q: real :: FullTurnFitsAt(l, q)
  {
    if ExceedsFullTurn(l) {
      assert FullTurnFitsAt(l, l.lower);
    }
  }

  /** The rows of several limit arrays, one after the other. */
  function Flatten(rows: seq<seq<JointLimit>>): seq<JointLimit>
    decreases |rows|
  {
    if rows == [] then [] else rows[0] + Flatten(rows[1..])
  }

  /** The number of rows of several limit arrays. */
  function TotalRows(rows: seq<seq<JointLimit>>): nat
    decreases |rows|
  {
    if rows == [] then 0 else |rows[0]| + TotalRows(rows[1..])
  }

  /** Flattening keeps every row and adds none. */
  lemma {:induction false} FlattenKeepsRows(rows: seq<seq<JointLimit>>)
    ensures |Flatten(rows)| == TotalRows(rows)
    ensures forall l :: l in Flatten(rows) <==> exists i :: 0 <= i < |rows| && l in rows[i]
    decreases |rows|
  {
    if rows != [] {
      FlattenKeepsRows(rows[1..]);
      forall l | l in Flatten(rows) ensures exists i :: 0 <= i < |rows| && l in rows[i] {
        if l !in rows[0] {
          var i :| 0 <= i < |rows[1..]| && l in rows[1..][i];
          assert l in rows[i + 1];
        }
      }
      forall l | exists i :: 0 <= i < |rows| && l in rows[i] ensures l in Flatten(rows) {
        var i :| 0 <= i < |rows| && l in rows[i];
        if i > 0 {
          assert l in rows[1..][i - 1];
        }
      }
    }
  }

  /** `np.concatenate` of a list of limit arrays: an empty list is a ValueError. */
  function Concatenate(rows: seq<seq<JointLimit>>): (r: Result<seq<JointLimit>>)
    ensures r.Failure? <==> rows == []
    ensures r.Failure? ==> r.error.ValueError?
    ensures r.Success? ==> |r.value| == TotalRows(rows)
  {
    FlattenKeepsRows(rows);
    if rows == [] then Failure(ValueError("need at least one array to concatenate")) else Success(Flatten(rows))
  }

  /**
   * The equivalent-joint mask: a joint-type test combined element-wise with
   * a range test under numpy broadcasting. An empty list of joint types
   * becomes a float array, which `&` refuses with a TypeError. Otherwise
   * equal lengths pair up, a side of length one is repeated, and any other
   * mismatch is a ValueError.
   */
  function EquivJointMask(types: seq<string>, limits: seq<JointLimit>): (r: Result<seq<bool>>)
    ensures r.Success? <==> types != [] && (|types| == |limits| || |types| == 1 || |limits| == 1)
    ensures r.Failure? ==> (r.error.TypeError? <==> types == [])
    ensures r.Failure? ==> r.error.TypeError? || r.error.ValueError?
    ensures r.Success? ==>
      && |r.value| == (if |types| == |limits| || |limits| == 1 then |types| else |limits|)
      && forall i :: 0 <= i < |r.value| ==>
           (r.value[i] <==> IsRevoluteType(types[if |types| == 1 then 0 else i])
                            && ExceedsFullTurn(limits[if |limits| == 1 then 0 else i]))
  {
    var a, b := |types|, |limits|;
    if a == 0 then Failure(TypeError("ufunc 'bitwise_and' not supported for the input types"))
    else if a == b then Success(seq(a, i requires 0 <= i < a => IsRevoluteType(types[i]) && ExceedsFullTurn(limits[i])))
    else if a == 1 then Success(seq(b, i requires 0 <= i < b => IsRevoluteType(types[0]) && ExceedsFullTurn(limits[i])))
    else if b == 1 then Success(seq(a, i requires 0 <= i < a => IsRevoluteType(types[i]) && ExceedsFullTurn(limits[0])))
    else Failure(ValueError("operands could not be broadcast together"))
  }

  /**
   * With one limit row per joint, the mask marks exactly the revolute
   * joints whose range holds two values a full turn apart.
   */
  lemma EquivJointMaskMarksFullTurns(types: seq<string>, limits: seq<JointLimit>, i: nat)
    requires |types| == |limits| && i < |types|
    ensures EquivJointMask(types, limits).Success?
    ensures EquivJointMask(types, limits).value[i] <==>
      IsRevoluteType(types[i]) && exists q: real :: FullTurnFitsAt(limits[i], q)
  {
    FullTurnFits(limits[i]);
  }

  /**
   * `d[name] = i` over `enumerate(names)`: every name is a key, and it maps
   * to the last position holding it.
   */
  ghost predicate IsLastIndexMap(m: map<string, nat>, names: seq<string>)
  {
    && (forall n :: n in m <==> n in names)
    && forall n :: n in m ==>
         m[n] < |names| && names[m[n]] == n && forall j :: m[n] < j < |names| ==> names[j] != n
  }

  /** The name-to-index dictionary a loop over `enumerate(names)` builds. */
  method IndexMap(names: seq<string>) returns (m: map<string, nat>)
    ensures IsLastIndexMap(m, names)
  {
    m := map[];
    var i := 0;
    while i < |names|
      invariant 0 <= i <= |names|
      invariant IsLastIndexMap(m, names[..i])
    {
      assert names[..i + 1] == names[..i] + [names[i]];
      m := m[names[i] := i];
      i := i + 1;
    }
    assert names[..i] == names;
  }

  /** The dictionary is determined by the list. */
  lemma LastIndexMapUnique(m1: map<string, nat>, m2: map<string, nat>, names: seq<string>)
    requires IsLastIndexMap(m1, names) && IsLastIndexMap(m2, names)
    ensures m1 == m2
  {
    forall n | n in m1 ensures m1[n] == m2[n] {
      assert names[m1[n]] == n && names[m2[n]] == n;
    }
  }

  /** For a list without repeats, each name maps to its own position. */
  lemma LastIndexMapOfDistinct(m: map<string, nat>, names: seq<string>)
    requires IsLastIndexMap(m, names) && Distinct(names)
    ensures forall i :: 0 <= i < |names| ==> names[i] in m && m[names[i]] == i
  {
    forall i | 0 <= i < |names| ensures names[i] in m && m[names[i]] == i {
      var k := m[names[i]];
      assert names[k] == names[i];
    }
  }

  function Ones(n: nat): (r: seq<real>)
    ensures |r| == n && forall i :: 0 <= i < n ==> r[i] == 1.0
  {
    seq(n, _ => 1.0)
  }

  /** One warning per collision the robot is found in at set-up, in order. */
  function InitialCollisionWarnings(collisions: seq<WorldCollisionResult>): (r: seq<Diagnostic>)
    ensures |r| == |collisions|
    ensures forall i :: 0 <= i < |r| ==>
      r[i] == InitialCollision(collisions[i].linkName1, collisions[i].linkName2, collisions[i].objectName2)
  {
    seq(|collisions|, i requires 0 <= i < |collisions| =>
      InitialCollision(collisions[i].linkName1, collisions[i].linkName2, collisions[i].objectName2))
  }

  /** Whether the given limit lengths pass the constructor's check. */
  predicate LengthsAgree(vel: seq<real>, acc: seq<real>, moveGroupJoints: seq<nat>, limits: seq<JointLimit>)
  {
    |vel| == |acc| == |moveGroupJoints| <= |limits|
  }

  class SapienPlanner {
    var planningWorld: SapienPlanningWorld?
    var robotName: string
    var userLinkNames: seq<string>
    var userJointNames: seq<string>
    var jointName2Idx: map<string, nat>
    var linkName2Idx: map<string, nat>
    var moveGroup: string
    var moveGroupJointIndices: seq<nat>
    var jointTypes: seq<string>
    var jointLimits: seq<JointLimit>
    var jointVelLimits: seq<real>
    var jointAccLimits: seq<real>
    var moveGroupLinkId: nat
    var equivJointMask: seq<bool>
    var warnings: seq<Diagnostic>

    constructor ()
      ensures planningWorld == null && warnings == []
    {
      planningWorld := null;
      robotName, userLinkNames, userJointNames := "", [], [];
      jointName2Idx, linkName2Idx := map[], map[];
      moveGroup, moveGroupJointIndices := "", [];
      jointTypes, jointLimits := [], [];
      jointVelLimits, jointAccLimits := [], [];
      moveGroupLinkId, equivJointMask := 0, [];
      warnings := [];
    }

    /**
     * The body of `SapienPlanner.__init__`. It fails with
     * NotImplementedError unless exactly one articulation is planned and
     * with AssertionError if the move group is not a link; `Configure` does
     * the rest.
     */
    method Init(world: SapienPlanningWorld, group: string, vel: Option<seq<real>>, acc: Option<seq<real>>)
      returns (outcome: Outcome)
      requires world.Valid()
      modifies this
      ensures planningWorld == world
      ensures unchanged(world)
      ensures |world.planned| != 1 ==> outcome == Fail(NotImplementedError("Must have exactly one planned articulation"))
      ensures |world.planned| == 1 ==>
        && robotName in world.planned && robotName in world.articulations
        && var m := world.articulations[robotName];
        && userLinkNames == m.linkNames && userJointNames == m.jointNames
        && (group !in m.linkNames ==> outcome.Fail? && outcome.error.AssertionError?)
        && (group in m.linkNames ==>
              && IsLastIndexMap(jointName2Idx, m.jointNames)
              && IsLastIndexMap(linkName2Idx, m.linkNames)
              && Configured(m, group, world.backend.moveGroupJointIndices(m, group),
                            world.backend.robotCollisions(old(world.State())), vel, acc, old(warnings), outcome))
    {
      var collisions := world.backend.robotCollisions(world.State());
      planningWorld := world;
      if |world.planned| != 1 {
        return Fail(NotImplementedError("Must have exactly one planned articulation"));
      }
      var robot := LoadRobot(world);
      if group !in userLinkNames {
        return Fail(AssertionError("end-effector not found as one of the links"));
      }
      outcome := Configure(robot, group, world.backend.moveGroupJointIndices(robot, group), collisions, vel, acc);
    }

    /** The one planned articulation, its names and its name-to-index dictionaries. */
    method LoadRobot(world: SapienPlanningWorld) returns (robot: ArticulatedModel)
      requires world.Valid() && |world.planned| == 1
      modifies this`robotName, this`userLinkNames, this`userJointNames, this`jointName2Idx, this`linkName2Idx
      ensures robotName in world.planned && robotName in world.articulations
      ensures robot == world.articulations[robotName]
      ensures userLinkNames == robot.linkNames && userJointNames == robot.jointNames
      ensures IsLastIndexMap(jointName2Idx, robot.jointNames) && IsLastIndexMap(linkName2Idx, robot.linkNames)
    {
      var name :| name in world.planned;
      robotName := name;
      robot := world.articulations[name];
      userLinkNames := robot.linkNames;
      userJointNames := robot.jointNames;
      jointName2Idx := IndexMap(userJointNames);
      linkName2Idx := IndexMap(userLinkNames);
    }

    /**
     * What the constructor leaves once the robot and move group are known,
     * given the move group's joint indices and the robot's collisions as
     * the planning world reports them: the move group and its joints, the
     * joint types and the concatenated limits (a ValueError when there are
     * none), the limits defaulting to ones, the move group's link index as
     * the link dictionary gives it (the last link of that name), a warning
     * per initial collision, and then the length check (AssertionError) and
     * the mask (TypeError or ValueError when it cannot be formed).
     */
    ghost predicate Configured(m: ArticulatedModel, group: string, joints: seq<nat>,
                               collisions: seq<WorldCollisionResult>,
                               vel: Option<seq<real>>, acc: Option<seq<real>>,
                               warningsBefore: seq<Diagnostic>, outcome: Outcome)
      reads this
    {
      && moveGroup == group
      && moveGroupJointIndices == joints
      && jointTypes == m.jointTypes
      && (m.jointLimits == [] ==> outcome.Fail? && outcome.error.ValueError?)
      && (m.jointLimits != [] ==>
            && jointLimits == Flatten(m.jointLimits)
            && jointVelLimits == (if vel.Some? then vel.value else Ones(|moveGroupJointIndices|))
            && jointAccLimits == (if acc.Some? then acc.value else Ones(|moveGroupJointIndices|))
            && group in linkName2Idx && moveGroupLinkId == linkName2Idx[group]
            && moveGroupLinkId < |m.linkNames| && m.linkNames[moveGroupLinkId] == group
            && (forall j :: moveGroupLinkId < j < |m.linkNames| ==> m.linkNames[j] != group)
            && warnings == warningsBefore + InitialCollisionWarnings(collisions)
            && (!LengthsAgree(jointVelLimits, jointAccLimits, moveGroupJointIndices, jointLimits) ==>
                  outcome.Fail? && outcome.error.AssertionError?)
            && (LengthsAgree(jointVelLimits, jointAccLimits, moveGroupJointIndices, jointLimits) ==>
                  match EquivJointMask(jointTypes, jointLimits)
                  case Failure(e) => outcome == Fail(e)
                  case Success(mask) => outcome == Pass && equivJointMask == mask))
    }

    method Configure(robot: ArticulatedModel, group: string, joints: seq<nat>, collisions: seq<WorldCollisionResult>,
                     vel: Option<seq<real>>, acc: Option<seq<real>>) returns (outcome: Outcome)
      requires group in robot.linkNames && IsLastIndexMap(linkName2Idx, robot.linkNames)
      modifies this`moveGroup, this`moveGroupJointIndices, this`jointTypes, this`jointLimits,
               this`jointVelLimits, this`jointAccLimits, this`moveGroupLinkId, this`warnings, this`equivJointMask
      ensures Configured(robot, group, joints, collisions, vel, acc, old(warnings), outcome)
    {
      moveGroup := group;
      moveGroupJointIndices := joints;
      jointTypes := robot.jointTypes;
      outcome := SetLimits(robot.jointLimits, vel, acc, |moveGroupJointIndices|);
      if outcome.Fail? {
        return;
      }
      moveGroupLinkId := linkName2Idx[moveGroup];
      WarnInitialCollisions(collisions);
      outcome := CheckLimitsAndMask();
    }

    /**
     * The concatenated limits, and the velocity and acceleration limits
     * defaulting to ones over the move group's joints.
     */
    method SetLimits(rows: seq<seq<JointLimit>>, vel: Option<seq<real>>, acc: Option<seq<real>>, n: nat)
      returns (outcome: Outcome)
      modifies this`jointLimits, this`jointVelLimits, this`jointAccLimits
      ensures outcome.Fail? <==> rows == []
      ensures outcome.Fail? ==> outcome.error.ValueError?
      ensures outcome.Pass? ==>
        && jointLimits == Flatten(rows)
        && jointVelLimits == (if vel.Some? then vel.value else Ones(n))
        && jointAccLimits == (if acc.Some? then acc.value else Ones(n))
    {
      var limits := Concatenate(rows);
      if limits.Failure? {
        return Fail(limits.error);
      }
      jointLimits := limits.value;
      jointVelLimits := if vel.Some? then vel.value else Ones(n);
      jointAccLimits := if acc.Some? then acc.value else Ones(n);
      return Pass;
    }

    /** The length check, then the mask. */
    method CheckLimitsAndMask() returns (outcome: Outcome)
      modifies this`equivJointMask
      ensures !LengthsAgree(jointVelLimits, jointAccLimits, moveGroupJointIndices, jointLimits) ==>
        outcome.Fail? && outcome.error.AssertionError?
      ensures LengthsAgree(jointVelLimits, jointAccLimits, moveGroupJointIndices, jointLimits) ==>
        match EquivJointMask(jointTypes, jointLimits)
        case Failure(e) => outcome == Fail(e)
        case Success(mask) => outcome == Pass && equivJointMask == mask
    {
      if !LengthsAgree(jointVelLimits, jointAccLimits, moveGroupJointIndices, jointLimits) {
        return Fail(AssertionError("limit lengths disagree"));
      }
      var mask := EquivJointMask(jointTypes, jointLimits);
      if mask.Failure? {
        return Fail(mask.error);
      }
      equivJointMask := mask.value;
      return Pass;
    }

    /** A warning for each collision the robot is in at set-up. */
    method WarnInitialCollisions(collisions: seq<WorldCollisionResult>)
      modifies this`warnings
      ensures warnings == old(warnings) + InitialCollisionWarnings(collisions)
    {
      var i := 0;
      while i < |collisions|
        invariant 0 <= i <= |collisions|
        invariant warnings == old(warnings) + InitialCollisionWarnings(collisions[..i])
      {
        assert collisions[..i + 1] == collisions[..i] + [collisions[i]];
        var c := collisions[i];
        warnings := warnings + [InitialCollision(c.linkName1, c.linkName2, c.objectName2)];
        i := i + 1;
      }
      assert collisions[..i] == collisions;
    }

    /** `update_from_simulation`: passed on to the planning world. */
    method UpdateFromSimulation(scene: Scene, updateAttached: bool) returns (outcome: Outcome)
      requires planningWorld != null && planningWorld.Valid()
      modifies planningWorld
      ensures planningWorld.Valid()
      ensures Update(old(planningWorld.State()), scene, updateAttached, planningWorld.backend)
           == Step(planningWorld.State(), ErrorOf(outcome))
    {
      outcome := planningWorld.UpdateFromSimulation(scene, updateAttached);
    }
  }
}
