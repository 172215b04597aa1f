/**
 * The freezing scenario of the store tests: a dataset related to a
 * derivation, a generation, an invalidation and a contributor, each
 * registered once (recorded version 1).
 */
module FreezeScenario {
  import opened Wrappers
  import opened Freezing
  import opened Text

  function Derivation1(): Entity {
    Entity(Some("http://derivation1"), "Dataset", Some("A derivation dataset"), Some(1), false, [])
  }

  function Generation1(): Entity {
    Entity(Some("http://generation1"), "Dataset", Some("A generation dataset"), Some(1), false, [])
  }

  function Invalidation1(): Entity {
    Entity(Some("http://invalidation1"), "Activity", Some("An invalidation activity"), Some(1), false, [])
  }

  function Contribution1(): Entity {
    Entity(Some("http://contribution1"), "Person", Some("A contributor"), Some(1), false, [])
  }

  /** The dataset, not yet given an identifier, after its four relations are added unversioned. */
  function Related(): Entity {
    var d := Entity(None, "Dataset", Some("A dataset"), Some(1), false, []);
    var d := AddRelation(d, "derivation", "Derivation", "entity", Derivation1(), true);
    var d := AddRelation(d, "generation", "Generation", "activity", Generation1(), false);
    var d := AddRelation(d, "invalidation", "Invalidation", "activity", Invalidation1(), false);
    AddRelation(d, "contribution", "Contribution", "agent", Contribution1(), false)
  }

  /** Before freezing, each relation holds its target's plain identifier and type (and, for the derivation, its name). */
  lemma RelationsBeforeFreeze()
    ensures Related().relations == [
      Relation("derivation", "Derivation", "entity",
        Entity(Some("http://derivation1"), "Dataset", Some("A derivation dataset"), Some(1), false, [])),
      Relation("generation", "Generation", "activity",
        Entity(Some("http://generation1"), "Dataset", None, Some(1), false, [])),
      Relation("invalidation", "Invalidation", "activity",
        Entity(Some("http://invalidation1"), "Activity", None, Some(1), false, [])),
      Relation("contribution", "Contribution", "agent",
        Entity(Some("http://contribution1"), "Person", None, Some(1), false, []))]
  {
  }

  /** Stamping with version 1 appends `?_version=1`. */
  lemma StampIdOne(id: string)
    ensures StampId(id, 1) == id + "?_version=1"
  {
    assert NatToString(1) == "1";
  }

  /** The dataset once it has its identifier and the store has synchronised it. */
  function Dataset(): Entity {
    Related().(id := Some("http://dataset"), synchronized := true)
  }

  /** Freezing the dataset succeeds, stamps its identifier with `?_version=1` and unsynchronises it. */
  lemma FreezeDataset()
    ensures Freeze(Dataset()).Ok?
    ensures Freeze(Dataset()).value.id == Some("http://dataset?_version=1")
    ensures !Freeze(Dataset()).value.synchronized
  {
    RelationsBeforeFreeze();
    assert Stampable(Dataset());
    FreezeCorrect(Dataset());
    StampIdOne("http://dataset");
    StampedDataset();
  }

  lemma StampedDataset()
    ensures "http://dataset" + "?_version=1" == "http://dataset?_version=1"
  {
  }

  /** After the freeze, the target of each relation of the dataset carries `?_version=1`. */
  lemma FrozenDatasetTarget(i: nat, id: string)
    requires i < 4 && Related().relations[i].target.id == Some(id)
    ensures Freeze(Dataset()).Ok? && |Freeze(Dataset()).value.relations| == 4
    ensures Freeze(Dataset()).value.relations[i].attribute == Related().relations[i].attribute
    ensures Freeze(Dataset()).value.relations[i].role == Related().relations[i].role
    ensures Freeze(Dataset()).value.relations[i].target.id == Some(id + "?_version=1")
  {
    FreezeDataset();
    RelationsBeforeFreeze();
    FrozenTarget(Dataset(), i);
    StampIdOne(id);
  }

  /** The test's `dataset.derivation.entity.id` after the freeze. */
  lemma FrozenDerivation()
    ensures Freeze(Dataset()).Ok? && |Freeze(Dataset()).value.relations| == 4
    ensures Freeze(Dataset()).value.relations[0].attribute == "derivation"
    ensures Freeze(Dataset()).value.relations[0].role == "entity"
    ensures Freeze(Dataset()).value.relations[0].target.id == Some("http://derivation1?_version=1")
  {
    RelationsBeforeFreeze();
    FrozenDatasetTarget(0, "http://derivation1");
    StampedDerivation();
  }

  lemma StampedDerivation()
    ensures "http://derivation1" + "?_version=1" == "http://derivation1?_version=1"
  {
  }

  /** The test's `dataset.generation.activity.id` after the freeze. */
  lemma FrozenGeneration()
    ensures Freeze(Dataset()).Ok? && |Freeze(Dataset()).value.relations| == 4
    ensures Freeze(Dataset()).value.relations[1].attribute == "generation"
    ensures Freeze(Dataset()).value.relations[1].role == "activity"
    ensures Freeze(Dataset()).value.relations[1].target.id == Some("http://generation1?_version=1")
  {
    RelationsBeforeFreeze();
    FrozenDatasetTarget(1, "http://generation1");
    StampedGeneration();
  }

  lemma StampedGeneration()
    ensures "http://generation1" + "?_version=1" == "http://generation1?_version=1"
  {
  }

  /** The test's `dataset.invalidation.activity.id` after the freeze. */
  lemma FrozenInvalidation()
    ensures Freeze(Dataset()).Ok? && |Freeze(Dataset()).value.relations| == 4
    ensures Freeze(Dataset()).value.relations[2].attribute == "invalidation"
    ensures Freeze(Dataset()).value.relations[2].role == "activity"
    ensures Freeze(Dataset()).value.relations[2].target.id == Some("http://invalidation1?_version=1")
  {
    RelationsBeforeFreeze();
    FrozenDatasetTarget(2, "http://invalidation1");
    StampedInvalidation();
  }

  lemma StampedInvalidation()
    ensures "http://invalidation1" + "?_version=1" == "http://invalidation1?_version=1"
  {
  }

  /** The test's `dataset.contribution.agent.id` after the freeze. */
  lemma FrozenContribution()
    ensures Freeze(Dataset()).Ok? && |Freeze(Dataset()).value.relations| == 4
    ensures Freeze(Dataset()).value.relations[3].attribute == "contribution"
    ensures Freeze(Dataset()).value.relations[3].role == "agent"
    ensures Freeze(Dataset()).value.relations[3].target.id == Some("http://contribution1?_version=1")
  {
    RelationsBeforeFreeze();
    FrozenDatasetTarget(3, "http://contribution1");
    StampedContribution();
  }

  lemma StampedContribution()
    ensures "http://contribution1" + "?_version=1" == "http://contribution1?_version=1"
  {
  }
}
