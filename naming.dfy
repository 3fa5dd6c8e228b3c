/**
 * Unique names for planning-world entries: an entity's declared name, an
 * underscore, and its per-scene id in decimal (`convert_object_name`).
 */
module Naming {
  import opened Results
  import opened Sapien

  predicate IsDigit(c: char) { '0' <= c <= '9' }

  predicate AllDigits(s: string) { forall i :: 0 <= i < |s| ==> IsDigit(s[i]) }

  function DigitChar(d: nat): (c: char)
    requires d < 10
    ensures IsDigit(c) && c as int - '0' as int == d
  {
    ('0' as int + d) as char
  }

  /** `str(n)` for a non-negative integer: decimal, no leading zeros. */
  function NatToString(n: nat): (s: string)
    ensures |s| >= 1 && AllDigits(s)
    ensures s[0] == '0' ==> n == 0
    decreases n
  {
    if n < 10 then [DigitChar(n)] else NatToString(n / 10) + [DigitChar(n % 10)]
  }

  /** The value of a string of decimal digits. */
  function ParseDigits(s: string): nat
    requires AllDigits(s)
  {
    if s == [] then 0 else 10 * ParseDigits(s[..|s| - 1]) + (s[|s| - 1] as int - '0' as int)
  }

  /** Reading back the decimal text of a number gives the number. */
  lemma {:induction false} ParseNatToString(n: nat)
    ensures ParseDigits(NatToString(n)) == n
  {
    if n >= 10 {
      var s := NatToString(n);
      assert s[..|s| - 1] == NatToString(n / 10);
      ParseNatToString(n / 10);
    }
  }

  lemma NatToStringInjective(m: nat, n: nat)
    ensures NatToString(m) == NatToString(n) <==> m == n
  {
    ParseNatToString(m);
    ParseNatToString(n);
  }

  /** `f"{name}_{id}"`. */
  function ObjectName(name: string, id: nat): string
  {
    name + "_" + NatToString(id)
  }

  /** Splits a string at its last underscore; `None` when it has none. */
  function SplitAtLastUnderscore(s: string): Option<(string, string)>
  {
    if s == [] then None
    else if s[|s| - 1] == '_' then Some((s[..|s| - 1], ""))
    else match SplitAtLastUnderscore(s[..|s| - 1])
      case None => None
      case Some((head, tail)) => Some((head, tail + [s[|s| - 1]]))
  }

  /** The id a unique name ends with: the digits after its last underscore. */
  function IdOfName(s: string): Option<nat>
  {
    match SplitAtLastUnderscore(s)
    case Some((_, tail)) =>
      if tail != [] && AllDigits(tail) then Some(ParseDigits(tail)) else None
    case None => None
  }

  lemma {:induction false} SplitAfterDigits(head: string, digits: string)
    requires AllDigits(digits)
    ensures SplitAtLastUnderscore(head + "_" + digits) == Some((head, digits))
    decreases |digits|
  {
    var s := head + "_" + digits;
    if digits == [] {
      assert s[..|s| - 1] == head;
    } else {
      var shorter := digits[..|digits| - 1];
      assert s[..|s| - 1] == head + "_" + shorter;
      assert s[|s| - 1] == digits[|digits| - 1];
      SplitAfterDigits(head, shorter);
      assert shorter + [digits[|digits| - 1]] == digits;
    }
  }

  /**
   * A unique name splits back into the declared name and the decimal id,
   * and the id can be read back from it, whatever the declared name holds.
   */
  lemma ObjectNameRoundTrip(name: string, id: nat)
    ensures SplitAtLastUnderscore(ObjectName(name, id)) == Some((name, NatToString(id)))
    ensures IdOfName(ObjectName(name, id)) == Some(id)
  {
    SplitAfterDigits(name, NatToString(id));
    ParseNatToString(id);
  }

  /** Two unique names agree exactly when both the declared names and the ids agree. */
  lemma ObjectNameInjective(name1: string, id1: nat, name2: string, id2: nat)
    ensures ObjectName(name1, id1) == ObjectName(name2, id2) <==> name1 == name2 && id1 == id2
  {
    ObjectNameRoundTrip(name1, id1);
    ObjectNameRoundTrip(name2, id2);
    NatToStringInjective(id1, id2);
  }

  /** The per-scene id an object's name is derived from. */
  function IdOf(obj: SapienObject): nat
    requires !obj.OtherObj?
  {
    match obj
    case ArticulationObj(art) => art.root.perSceneId
    case EntityObj(e) => e.perSceneId
  }

  function DeclaredName(obj: SapienObject): string
    requires !obj.OtherObj?
  {
    match obj
    case ArticulationObj(art) => art.name
    case EntityObj(e) => e.name
  }

  /**
   * `convert_object_name`: an articulation is named after its root link's
   * entity id, an entity after its own id; any other object is refused.
   */
  function ConvertObjectName(obj: SapienObject): (r: Result<string>)
    ensures r.Failure? <==> obj.OtherObj?
    ensures r.Failure? ==> r.error.NotImplementedError?
    ensures r.Success? ==>
      SplitAtLastUnderscore(r.value) == Some((DeclaredName(obj), NatToString(IdOf(obj))))
      && IdOfName(r.value) == Some(IdOf(obj))
  {
    match obj
    case ArticulationObj(art) =>
      ObjectNameRoundTrip(art.name, art.root.perSceneId);
      Success(ObjectName(art.name, art.root.perSceneId))
    case EntityObj(e) =>
      ObjectNameRoundTrip(e.name, e.perSceneId);
      Success(ObjectName(e.name, e.perSceneId))
    case OtherObj(t, _) => Failure(NotImplementedError(t))
  }

  function EntityName(e: EntityInfo): string { ObjectName(e.name, e.perSceneId) }

  function ArticulationName(art: SimArticulation): string { ObjectName(art.name, art.root.perSceneId) }

  /** Objects with different per-scene ids never share a name. */
  lemma DistinctIdsDistinctNames(a: SapienObject, b: SapienObject)
    requires !a.OtherObj? && !b.OtherObj?
    requires IdOf(a) != IdOf(b)
    ensures ConvertObjectName(a) != ConvertObjectName(b)
  {
    var ra, rb := ConvertObjectName(a), ConvertObjectName(b);
    assert IdOfName(ra.value) != IdOfName(rb.value);
  }

  /** The ids of the entities that name a scene's entries: articulation roots, then actors. */
  function SceneIds(scene: Scene): seq<nat>
  {
    seq(|scene.articulations|, i requires 0 <= i < |scene.articulations| => scene.articulations[i].root.perSceneId)
    + seq(|scene.actors|, i requires 0 <= i < |scene.actors| => scene.actors[i].entity.perSceneId)
  }

  /** The unique names of a scene's articulations and actors, in the same order. */
  function SceneNames(scene: Scene): seq<string>
  {
    seq(|scene.articulations|, i requires 0 <= i < |scene.articulations| => ArticulationName(scene.articulations[i]))
    + seq(|scene.actors|, i requires 0 <= i < |scene.actors| => EntityName(scene.actors[i].entity))
  }

  predicate Distinct<T(==)>(s: seq<T>)
  {
    forall i, j :: 0 <= i < j < |s| ==> s[i] != s[j]
  }

  /**
   * Within one scene every entity has its own per-scene id, so every
   * articulation and actor gets a name of its own.
   */
  lemma SceneNamesUnique(scene: Scene)
    requires Distinct(SceneIds(scene))
    ensures Distinct(SceneNames(scene))
  {
    var ids, names := SceneIds(scene), SceneNames(scene);
    var na := |scene.articulations|;
    assert |ids| == |names|;
    forall i, j | 0 <= i < j < |names|
      ensures names[i] != names[j]
    {
      var ni := if i < na then scene.articulations[i].name else scene.actors[i - na].entity.name;
      var nj := if j < na then scene.articulations[j].name else scene.actors[j - na].entity.name;
      assert names[i] == ObjectName(ni, ids[i]);
      assert names[j] == ObjectName(nj, ids[j]);
      ObjectNameInjective(ni, ids[i], nj, ids[j]);
    }
  }
}
