/**
 * DemoStore: the in-memory store whose `register` and `update` keep a
 * versioned ledger in two dictionaries, `_data` and `_archives`, and
 * record each attempt's outcome on the resource itself.
 */
module DemoStore {
  import opened Wrappers
  import L = VersionedLedger

  /** What `run` records in a resource's `_last_action`. */
  datatype Action = Action(operation: string, succeeded: bool, message: Option<string>)

  function Message(f: L.Failure): string {
    match f
    case AlreadyExists => "resource already exists"
    case MissingIdentifier => "'Resource' object has no attribute 'id'"
  }

  /** The `_last_action` that `run` records after one `_register` attempt. */
  function ActionOf(failure: Option<L.Failure>): Action {
    match failure
    case None => Action("_register", true, None)
    case Some(f) => Action("_register", false, Some(Message(f)))
  }

  /**
   * A resource as the store sees it: its identifier (absent when the
   * resource has none), and the bookkeeping flags `run` writes.
   */
  class Resource {
    const id: Option<string>
    var synchronized: bool
    var lastAction: Option<Action>

    constructor (id: Option<string>)
      ensures this.id == id && !synchronized && lastAction == None
    {
      this.id := id;
      synchronized := false;
      lastAction := None;
    }
  }

  /** `ManagedData`: one resource, or a list of them. */
  datatype ManagedData = Single(resource: Resource) | Many(resources: seq<Resource>)

  function Elements(managed: ManagedData): seq<Resource> {
    match managed
    case Single(r) => [r]
    case Many(rs) => rs
  }

  /** The `(id, resource)` pairs that the ledger registers, in list order. */
  function Batch(resources: seq<Resource>): (batch: seq<(Option<string>, Resource)>)
    ensures |batch| == |resources|
    ensures forall i :: 0 <= i < |resources| ==> batch[i] == (resources[i].id, resources[i])
  {
    seq(|resources|, i requires 0 <= i < |resources| => (resources[i].id, resources[i]))
  }

  /** The two flags `run` writes, as one value. */
  datatype Flags = Flags(synchronized: bool, lastAction: Option<Action>)

  /** The flags of each listed resource, in list order. */
  ghost function FlagsOf(resources: seq<Resource>): (flags: seq<Flags>)
    reads set r | r in resources
    ensures |flags| == |resources|
    ensures forall i :: 0 <= i < |resources| ==> flags[i] == Flags(resources[i].synchronized, resources[i].lastAction)
  {
    seq(|resources|, i reads set r | r in resources requires 0 <= i < |resources| =>
      Flags(resources[i].synchronized, resources[i].lastAction))
  }

  /**
   * The flags a batch leaves: every element whose attempt succeeded is
   * synchronized, and the last occurrence of each resource in the list
   * carries its own attempt's outcome.
   */
  ghost predicate Recorded(resources: seq<Resource>, flags: seq<Flags>, failures: seq<Option<L.Failure>>) {
    && |flags| == |resources| == |failures|
    && (forall i :: 0 <= i < |resources| && failures[i].None? ==> flags[i].synchronized)
    && (forall i :: 0 <= i < |resources| && resources[i] !in resources[i + 1..] ==>
          flags[i].lastAction == Some(ActionOf(failures[i])))
  }

  ghost predicate Reported(resources: seq<Resource>, failures: seq<Option<L.Failure>>)
    reads set r | r in resources
  {
    Recorded(resources, FlagsOf(resources), failures)
  }

  /** One more attempt on `r`: its flags change wherever it occurs, and nowhere else. */
  lemma RecordedSnoc(resources: seq<Resource>, i: nat, before: seq<Flags>, after: seq<Flags>, failures: seq<Option<L.Failure>>,
                     now: Flags, failure: Option<L.Failure>)
    requires i < |resources|
    requires var done, r := resources[..i], resources[i];
      && Recorded(done, before, failures)
      && |after| == |done|
      && (forall j :: 0 <= j < |done| ==> after[j] == if done[j] == r then now else before[j])
      && (forall j :: 0 <= j < |done| && done[j] == r && before[j].synchronized ==> now.synchronized)
    requires now.lastAction == Some(ActionOf(failure))
    requires failure.None? ==> now.synchronized
    ensures Recorded(resources[..i + 1], after + [now], failures + [failure])
  {
    var done, r := resources[..i], resources[i];
    assert resources[..i + 1] == done + [r];
    RecordedSnocAt(done, before, after, failures, r, now, failure);
  }

  lemma RecordedSnocAt(done: seq<Resource>, before: seq<Flags>, after: seq<Flags>, failures: seq<Option<L.Failure>>,
                       r: Resource, now: Flags, failure: Option<L.Failure>)
    requires Recorded(done, before, failures)
    requires |after| == |done|
    requires forall j :: 0 <= j < |done| ==> after[j] == if done[j] == r then now else before[j]
    requires now.lastAction == Some(ActionOf(failure))
    requires failure.None? ==> now.synchronized
    requires forall j :: 0 <= j < |done| && done[j] == r && before[j].synchronized ==> now.synchronized
    ensures Recorded(done + [r], after + [now], failures + [failure])
  {
    var rs := done + [r];
    forall j | 0 <= j < |done| && rs[j] !in rs[j + 1..]
      ensures (after + [now])[j].lastAction == Some(ActionOf((failures + [failure])[j]))
    {
      assert rs[j + 1..] == done[j + 1..] + [r];
    }
  }

  /** One more resource at the end of a list is one more registration, on the ledger the list left. */
  lemma BatchStep(start: L.Ledger<Resource>, resources: seq<Resource>, i: nat, update: bool,
                  l: L.Ledger<Resource>, l': L.Ledger<Resource>, failures: seq<Option<L.Failure>>, failure: Option<L.Failure>)
    requires i < |resources|
    requires L.RegisterAll(start, Batch(resources[..i]), update) == L.Report(l, failures)
    requires var step := L.Register(l, resources[i].id, resources[i], update);
      l' == step.ledger && failure == step.failure
    ensures L.RegisterAll(start, Batch(resources[..i + 1]), update) == L.Report(l', failures + [failure])
  {
    var r := resources[i];
    assert resources[..i + 1] == resources[..i] + [r];
    assert Batch(resources[..i + 1]) == Batch(resources[..i]) + [(r.id, r)];
    L.RegisterAllSnoc(start, Batch(resources[..i]), (r.id, r), update);
  }

  /** The flags of a list one longer are those of the list and of its new last element. */
  lemma FlagsOfSnoc(resources: seq<Resource>, i: nat)
    requires i < |resources|
    ensures FlagsOf(resources[..i + 1]) == FlagsOf(resources[..i]) + [Flags(resources[i].synchronized, resources[i].lastAction)]
  {
    assert resources[..i + 1] == resources[..i] + [resources[i]];
  }

  class DemoStore {
    /** `_data`: id to `(resource, version)`. */
    var data: map<string, L.Entry<Resource>>
    /** `_archives`: `f"{rid}_{pv}"` to the resource that version `pv` held. */
    var archives: map<string, Resource>

    function State(): L.Ledger<Resource>
      reads this
    {
      L.Ledger(data, archives)
    }

    ghost predicate Valid()
      reads this
    {
      L.WellFormed(State())
    }

    constructor ()
      ensures Valid() && State() == L.Empty()
    {
      data := map[];
      archives := map[];
    }

    /** `_register`: insert at version 1, or archive and bump on update, or fail. */
    method RegisterEntry(resource: Resource, update: bool) returns (failure: Option<L.Failure>)
      requires Valid()
      modifies this
      ensures Valid()
      ensures L.Step(State(), failure) == L.Register(old(State()), resource.id, resource, update)
    {
      L.RegisterPreservesWellFormed(State(), resource.id, resource, update);
      if resource.id.None? {
        return Some(L.MissingIdentifier);
      }
      var rid := resource.id.value;
      if rid in data {
        if update {
          var pr, pv := data[rid].snapshot, data[rid].version;
          archives := archives[L.ArchiveKey(rid, pv) := pr];
          data := data[rid := L.Entry(resource, pv + 1)];
          failure := None;
        } else {
          failure := Some(L.AlreadyExists);
        }
      } else {
        data := data[rid := L.Entry(resource, 1)];
        failure := None;
      }
    }

    /**
     * `run(self._register, "_synchronized", resource, update)`: one attempt;
     * success sets `_synchronized`, and every attempt records `_last_action`.
     */
    method Run(resource: Resource, update: bool)
      requires Valid()
      modifies this, resource
      ensures Valid()
      ensures var s := L.Register(old(State()), resource.id, resource, update);
        && State() == s.ledger
        && resource.lastAction == Some(ActionOf(s.failure))
        && resource.synchronized == (old(resource.synchronized) || s.failure.None?)
    {
      var failure := RegisterEntry(resource, update);
      if failure.None? {
        resource.synchronized := true;
      }
      resource.lastAction := Some(ActionOf(failure));
    }

    /** `_register_one`. */
    method RegisterOne(resource: Resource, update: bool)
      requires Valid()
      modifies this, resource
      ensures Valid()
      ensures var s := L.Register(old(State()), resource.id, resource, update);
        && State() == s.ledger
        && resource.lastAction == Some(ActionOf(s.failure))
        && resource.synchronized == (old(resource.synchronized) || s.failure.None?)
    {
      Run(resource, update);
    }

    /**
     * `_register_many`: one attempt per element, in list order, a failure
     * never stopping the rest. An element that succeeded is synchronized;
     * the last occurrence of each resource carries its own outcome.
     */
    method RegisterMany(resources: seq<Resource>, update: bool)
      requires Valid()
      modifies this, resources
      ensures Valid()
      ensures var report := L.RegisterAll(old(State()), Batch(resources), update);
        State() == report.ledger && Reported(resources, report.failures)
    {
      ghost var start := State();
      ghost var failures: seq<Option<L.Failure>> := [];
      var i := 0;
      while i < |resources|
        invariant 0 <= i <= |resources|
        invariant Valid()
        invariant L.RegisterAll(start, Batch(resources[..i]), update) == L.Report(State(), failures)
        invariant Reported(resources[..i], failures)
      {
        ghost var failure := RegisterNext(resources, i, update, start, failures);
        failures := failures + [failure];
        i := i + 1;
      }
      assert resources[..i] == resources;
    }

    /** One turn of the `_register_many` loop: the attempt on element `i`, after elements `0 .. i-1`. */
    method RegisterNext(resources: seq<Resource>, i: nat, update: bool, ghost start: L.Ledger<Resource>,
                        ghost failures: seq<Option<L.Failure>>) returns (ghost failure: Option<L.Failure>)
      requires Valid()
      requires i < |resources|
      requires L.RegisterAll(start, Batch(resources[..i]), update) == L.Report(State(), failures)
      requires Reported(resources[..i], failures)
      modifies this, resources[i]
      ensures Valid()
      ensures L.RegisterAll(start, Batch(resources[..i + 1]), update) == L.Report(State(), failures + [failure])
      ensures Reported(resources[..i + 1], failures + [failure])
    {
      var r := resources[i];
      ghost var done := resources[..i];
      ghost var step := L.Register(State(), r.id, r, update);
      ghost var before := FlagsOf(done);
      ghost var l := State();
      Run(r, update);
      failure := step.failure;
      assert State() == step.ledger;
      BatchStep(start, resources, i, update, l, State(), failures, failure);
      ghost var now := Flags(r.synchronized, r.lastAction);
      assert forall j :: 0 <= j < |done| ==> FlagsOf(done)[j] == if done[j] == r then now else before[j];
      RecordedSnoc(resources, i, before, FlagsOf(done), failures, now, failure);
      FlagsOfSnoc(resources, i);
    }

    /** `register(data, update)`: a single resource or a list, through `dispatch`. */
    method Register(managed: ManagedData, update: bool)
      requires Valid()
      modifies this, Elements(managed)
      ensures Valid()
      ensures var report := L.RegisterAll(old(State()), Batch(Elements(managed)), update);
        State() == report.ledger && Reported(Elements(managed), report.failures)
    {
      match managed
      case Single(r) =>
        ghost var step := L.Register(State(), r.id, r, update);
        L.RegisterAllSnoc(State(), [], (r.id, r), update);
        assert Batch([r]) == [] + [(r.id, r)];
        RegisterOne(r, update);
        assert FlagsOf([r]) == [Flags(r.synchronized, r.lastAction)];
        assert Recorded([r], FlagsOf([r]), [step.failure]);
      case Many(rs) =>
        RegisterMany(rs, update);
    }

    /** `update(data)`: exactly `register(data, update=True)`. */
    method Update(managed: ManagedData)
      requires Valid()
      modifies this, Elements(managed)
      ensures Valid()
      ensures var report := L.RegisterAll(old(State()), Batch(Elements(managed)), true);
        State() == report.ledger && Reported(Elements(managed), report.failures)
    {
      Register(managed, true);
    }
  }
}
