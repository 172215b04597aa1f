/**
 * Freezing a resource: the root and every resource it reaches through its
 * provenance relations (derivation, generation, invalidation, contribution)
 * get their identifier rewritten to `id?_version=n`, where `n` is the
 * version the store recorded for that resource, and are marked as no longer
 * synchronised with the store. Freezing is all-or-nothing: one reachable
 * resource without an identifier or a recorded version fails the whole call
 * and yields no stamped tree.
 *
 * The walk is modelled on values: `Freeze` returns the stamped tree instead
 * of rewriting the objects in place.
 */
module Freezing {
  import opened Wrappers
  import opened Text

  /**
   * A resource as freezing sees it: its identifier, type and name, the
   * version recorded in its store metadata (None when the store never
   * registered it), whether it is synchronised, and its relations.
   */
  datatype Entity = Entity(
    id: Option<string>,
    typ: string,
    name: Option<string>,
    version: Option<nat>,
    synchronized: bool,
    relations: seq<Relation>)

  /**
   * A relation attribute: `dataset.derivation` holding a `Derivation` whose
   * `entity` is the target is `Relation("derivation", "Derivation", "entity", target)`.
   */
  datatype Relation = Relation(attribute: string, kind: string, role: string, target: Entity)

  datatype FreezeError =
    | Unsynchronized
    | MissingId
    | Unversioned(id: string)

  const VersionMark: string := "?_version="

  /** The version-qualified form of an identifier. */
  function StampId(id: string, v: nat): (s: string)
    ensures |s| > |id| + |VersionMark|
    ensures s[..|id|] == id
  {
    id + VersionMark + NatToString(v)
  }

  /**
   * Reads a version-qualified identifier back: the text before the last
   * `?`, and the number after `?_version=`; None when `s` is not of that form.
   */
  function SplitStamp(s: string): (r: Option<(string, nat)>)
    ensures r.Some? ==> |r.value.0| < |s| && r.value.0 == s[..|r.value.0|]
  {
    var k := LastIndexOf(s, '?');
    if k < 0 then None
    else
      var tail := s[k..];
      if |tail| > |VersionMark| && tail[..|VersionMark|] == VersionMark && AllDigits(tail[|VersionMark|..])
      then Some((s[..k], ParseNat(tail[|VersionMark|..])))
      else None
  }

  /** A stamped identifier gives back the identifier and the version it was stamped with. */
  lemma SplitStampId(id: string, v: nat)
    ensures SplitStamp(StampId(id, v)) == Some((id, v))
  {
    var digits := NatToString(v);
    var d := "_version=" + digits;
    assert forall j :: 0 <= j < |d| ==> d[j] != '?' by {
      forall j | 0 <= j < |d| ensures d[j] != '?' {
        if j >= 9 {
          assert d[j] == digits[j - 9];
        }
      }
    }
    var s := StampId(id, v);
    assert s == id + ['?'] + d;
    LastIndexOfSeparator(id, '?', d);
    assert s[|id|..] == VersionMark + digits;
    assert s[|id|..][|VersionMark|..] == digits;
    ParseNatToString(v);
  }

  /** Different identifiers, or different versions, never share a stamp. */
  lemma StampIdInjective(id1: string, v1: nat, id2: string, v2: nat)
    requires StampId(id1, v1) == StampId(id2, v2)
    ensures id1 == id2 && v1 == v2
  {
    SplitStampId(id1, v1);
    SplitStampId(id2, v2);
  }

  /** Every resource in the tree has an identifier and a recorded version. */
  predicate Stampable(e: Entity)
    decreases e
  {
    && e.id.Some?
    && e.version.Some?
    && forall i :: 0 <= i < |e.relations| ==> Stampable(e.relations[i].target)
  }

  /**
   * `r` is `e` with every identifier in the tree replaced by its stamp and
   * every resource unsynchronised; types, names, versions and the relations
   * themselves are those of `e`.
   */
  predicate StampedCopy(e: Entity, r: Entity)
    decreases e
  {
    && e.id.Some? && e.version.Some?
    && r.id == Some(StampId(e.id.value, e.version.value))
    && !r.synchronized
    && r.typ == e.typ && r.name == e.name && r.version == e.version
    && |r.relations| == |e.relations|
    && forall i :: 0 <= i < |e.relations| ==>
         && r.relations[i].attribute == e.relations[i].attribute
         && r.relations[i].kind == e.relations[i].kind
         && r.relations[i].role == e.relations[i].role
         && StampedCopy(e.relations[i].target, r.relations[i].target)
  }

  /** Stamps `e` and, depth first, every resource its relations reach. */
  function StampEntity(e: Entity): Result<Entity, FreezeError>
    decreases e, 1
  {
    if e.id.None? then Err(MissingId)
    else if e.version.None? then Err(Unversioned(e.id.value))
    else
      match StampRelations(e.relations)
      case Err(err) => Err(err)
      case Ok(rs) => Ok(e.(id := Some(StampId(e.id.value, e.version.value)), synchronized := false, relations := rs))
  }

  /** Stamps the targets of `rs` in order; the first failure is the result. */
  function StampRelations(rs: seq<Relation>): Result<seq<Relation>, FreezeError>
    decreases rs, 0
  {
    if rs == [] then Ok([])
    else
      match StampEntity(rs[0].target)
      case Err(err) => Err(err)
      case Ok(t) =>
        match StampRelations(rs[1..])
        case Err(err) => Err(err)
        case Ok(rest) => Ok([rs[0].(target := t)] + rest)
  }

  /** Freezes a resource the store has synchronised. */
  function Freeze(root: Entity): Result<Entity, FreezeError> {
    if !root.synchronized then Err(Unsynchronized) else StampEntity(root)
  }

  lemma {:induction false} StampEntityCorrect(e: Entity)
    ensures StampEntity(e).Ok? <==> Stampable(e)
    ensures StampEntity(e).Ok? ==> StampedCopy(e, StampEntity(e).value)
    decreases e, 1
  {
    if e.id.Some? && e.version.Some? {
      StampRelationsCorrect(e.relations);
    }
  }

  lemma {:induction false} StampRelationsCorrect(rs: seq<Relation>)
    ensures StampRelations(rs).Ok? <==> forall i :: 0 <= i < |rs| ==> Stampable(rs[i].target)
    ensures StampRelations(rs).Ok? ==>
      var out := StampRelations(rs).value;
      && |out| == |rs|
      && forall i :: 0 <= i < |rs| ==>
           && out[i].attribute == rs[i].attribute
           && out[i].kind == rs[i].kind
           && out[i].role == rs[i].role
           && StampedCopy(rs[i].target, out[i].target)
    decreases rs, 0
  {
    if rs != [] {
      StampEntityCorrect(rs[0].target);
      StampRelationsCorrect(rs[1..]);
      assert forall i :: 1 <= i < |rs| ==> rs[i] == rs[1..][i - 1];
    }
  }

  /**
   * Freezing succeeds exactly when the root is synchronised and every
   * reachable resource has an identifier and a recorded version; the result
   * is then the stamped copy of the tree.
   */
  lemma FreezeCorrect(root: Entity)
    ensures Freeze(root).Ok? <==> root.synchronized && Stampable(root)
    ensures Freeze(root).Ok? ==> StampedCopy(root, Freeze(root).value)
  {
    StampEntityCorrect(root);
  }

  /** After a freeze, the target of each relation carries its own identifier stamped with its own version. */
  lemma FrozenTarget(root: Entity, i: nat)
    requires Freeze(root).Ok? && i < |root.relations|
    ensures root.relations[i].target.id.Some? && root.relations[i].target.version.Some?
    ensures |Freeze(root).value.relations| == |root.relations|
    ensures Freeze(root).value.relations[i].target.id
         == Some(StampId(root.relations[i].target.id.value, root.relations[i].target.version.value))
  {
    FreezeCorrect(root);
    assert StampedCopy(root.relations[i].target, Freeze(root).value.relations[i].target);
  }

  /** In a stamped copy, the identifier reads back as the original and its version. */
  lemma StampedIdReadsBack(e: Entity, r: Entity)
    requires StampedCopy(e, r)
    ensures r.id.Some? && SplitStamp(r.id.value) == Some((e.id.value, e.version.value))
  {
    SplitStampId(e.id.value, e.version.value);
  }

  /** One related resource with no recorded version fails the whole freeze: nothing comes back stamped. */
  lemma FreezeMissingVersion(root: Entity, i: nat)
    requires root.synchronized && Stampable(root.(relations := []))
    requires i < |root.relations|
    requires root.relations[i].target.id.Some? && root.relations[i].target.version.None?
    ensures Freeze(root).Err?
  {
    StampEntityCorrect(root);
  }

  /**
   * The reference a relation keeps to its target: the target's identifier,
   * type and recorded version, with the name kept only for some relation kinds.
   */
  function Reference(target: Entity, keepName: bool): Entity
  {
    Entity(target.id, target.typ, if keepName then target.name else None, target.version, target.synchronized, [])
  }

  /** Adds a relation holding an unversioned reference to `target`. */
  function AddRelation(e: Entity, attribute: string, kind: string, role: string, target: Entity, keepName: bool): (r: Entity)
    ensures r.id == e.id && r.typ == e.typ && r.name == e.name && r.version == e.version
    ensures r.synchronized == e.synchronized
    ensures |r.relations| == |e.relations| + 1 && r.relations[..|e.relations|] == e.relations
    ensures r.relations[|e.relations|].attribute == attribute
    ensures r.relations[|e.relations|].kind == kind && r.relations[|e.relations|].role == role
    ensures r.relations[|e.relations|].target.id == target.id
  {
    e.(relations := e.relations + [Relation(attribute, kind, role, Reference(target, keepName))])
  }
}
