/**
 * The versioned in-memory ledger behind DemoStore, as values.
 *
 * `_data` maps an identifier to its current `(resource, version)`;
 * `_archives` maps `f"{rid}_{pv}"` to the snapshot that version `pv`
 * replaced. `Register` is one call of `_register`; `RegisterAll` is the
 * loop of `_register_many`, one attempt per element, in list order. The
 * snapshot type `R` is left open: the store keeps object references.
 */
module VersionedLedger {
  import opened Wrappers
  import opened Text

  /** One value of `_data`: the stored resource and its version. */
  datatype Entry<R> = Entry(snapshot: R, version: nat)

  datatype Ledger<R> = Ledger(data: map<string, Entry<R>>, archives: map<string, R>)

  /** Why one `_register` attempt fails. */
  datatype Failure =
    | AlreadyExists      // RegistrationError("resource already exists")
    | MissingIdentifier  // the resource has no `id` attribute to read

  /** The ledger after one attempt, and the attempt's failure if any. */
  datatype Step<R> = Step(ledger: Ledger<R>, failure: Option<Failure>)

  /** The ledger after a batch, and one outcome per element, in order. */
  datatype Report<R> = Report(ledger: Ledger<R>, failures: seq<Option<Failure>>)

  /** The state `DemoStore.__init__` starts from. */
  function Empty<R>(): Ledger<R> {
    Ledger(map[], map[])
  }

  /** The archive key `f"{rid}_{pv}"`. */
  function ArchiveKey(rid: string, version: nat): string {
    rid + "_" + NatToString(version)
  }

  /** One call of `_register(resource, update)` for a resource whose id is `rid`. */
  function Register<R>(l: Ledger<R>, rid: Option<string>, resource: R, update: bool): Step<R> {
    match rid
    case None => Step(l, Some(MissingIdentifier))
    case Some(id) =>
      if id in l.data then
        if update then
          var Entry(previous, pv) := l.data[id];
          Step(Ledger(l.data[id := Entry(resource, pv + 1)], l.archives[ArchiveKey(id, pv) := previous]), None)
        else
          Step(l, Some(AlreadyExists))
      else
        Step(Ledger(l.data[id := Entry(resource, 1)], l.archives), None)
  }

  /** The `for` loop of `_register_many`: each `(id, resource)` in turn, none skipped. */
  function RegisterAll<R>(l: Ledger<R>, batch: seq<(Option<string>, R)>, update: bool): (r: Report<R>)
    ensures |r.failures| == |batch|
  {
    if batch == [] then Report(l, [])
    else
      var before := RegisterAll(l, batch[..|batch| - 1], update);
      var last := batch[|batch| - 1];
      var step := Register(before.ledger, last.0, last.1, update);
      Report(step.ledger, before.failures + [step.failure])
  }

  /** One more element at the end of a batch is one more `Register` on the ledger the batch left. */
  lemma RegisterAllSnoc<R>(l: Ledger<R>, batch: seq<(Option<string>, R)>, x: (Option<string>, R), update: bool)
    ensures var before := RegisterAll(l, batch, update);
      var step := Register(before.ledger, x.0, x.1, update);
      RegisterAll(l, batch + [x], update) == Report(step.ledger, before.failures + [step.failure])
  {
    assert (batch + [x])[..|batch|] == batch;
  }

  /** The archive keys a history-complete ledger holds: `rid_1 .. rid_(v-1)` for each current `rid` at version `v`. */
  ghost function History<R>(data: map<string, Entry<R>>): set<string> {
    set rid, j | rid in data && 1 <= j < data[rid].version :: ArchiveKey(rid, j)
  }

  /** Every stored version is at least 1, and the archive holds exactly the superseded versions. */
  ghost predicate WellFormed<R>(l: Ledger<R>) {
    && (forall rid :: rid in l.data ==> l.data[rid].version >= 1)
    && l.archives.Keys == History(l.data)
  }

  // ---------------------------------------------------------------------
  // Archive keys

  /** `str(pv)` has no `_`, so the last `_` of a key separates `rid` from `pv`: distinct pairs give distinct keys. */
  lemma ArchiveKeyInjective(rid1: string, v1: nat, rid2: string, v2: nat)
    requires ArchiveKey(rid1, v1) == ArchiveKey(rid2, v2)
    ensures rid1 == rid2 && v1 == v2
  {
    var k := ArchiveKey(rid1, v1);
    LastIndexOfSeparator(rid1, '_', NatToString(v1));
    LastIndexOfSeparator(rid2, '_', NatToString(v2));
    assert |rid1| == |rid2|;
    assert rid1 == k[..|rid1|] == rid2;
    assert NatToString(v1) == k[|rid1| + 1..] == NatToString(v2);
    NatToStringInjective(v1, v2);
  }

  // ---------------------------------------------------------------------
  // One registration

  /** The three cases of `_register`: which attempts fail, and the version an accepted one stores. */
  lemma RegisterOutcome<R>(l: Ledger<R>, rid: Option<string>, resource: R, update: bool)
    ensures var s := Register(l, rid, resource, update);
      && (s.failure.Some? <==> rid.None? || (rid.value in l.data && !update))
      && (s.failure.Some? ==> s.ledger == l)
      && (s.failure == Some(AlreadyExists) <==> rid.Some? && rid.value in l.data && !update)
      && (s.failure.None? ==>
            s.ledger.data[rid.value] == Entry(resource, if rid.value in l.data then l.data[rid.value].version + 1 else 1))
      && (s.failure.None? && rid.value !in l.data ==> s.ledger.archives == l.archives)
  {
  }

  /** Only the entry for the registered id changes, no key leaves either map, and at most one archive key is added. */
  lemma RegisterFrame<R>(l: Ledger<R>, rid: Option<string>, resource: R, update: bool)
    ensures var s := Register(l, rid, resource, update);
      && l.data.Keys <= s.ledger.data.Keys
      && l.archives.Keys <= s.ledger.archives.Keys
      && (forall k :: k in l.data && (rid.None? || k != rid.value) ==> s.ledger.data[k] == l.data[k])
      && (forall k :: k in s.ledger.data ==> k in l.data || (rid.Some? && k == rid.value))
      && |s.ledger.archives.Keys - l.archives.Keys| <= 1
  {
    var s := Register(l, rid, resource, update);
    if rid.Some? && rid.value in l.data && update {
      var key := ArchiveKey(rid.value, l.data[rid.value].version);
      assert s.ledger.archives.Keys - l.archives.Keys <= {key};
    } else {
      assert s.ledger.archives.Keys - l.archives.Keys == {};
    }
  }

  /** An accepted update archives the previous snapshot under `rid_pv`, a key that was not yet taken, and keeps every older snapshot. */
  lemma UpdateArchivesPrevious<R>(l: Ledger<R>, rid: string, resource: R)
    requires WellFormed(l)
    requires rid in l.data
    ensures var s := Register(l, Some(rid), resource, true);
      var key := ArchiveKey(rid, l.data[rid].version);
      && key !in l.archives
      && s.ledger.archives == l.archives[key := l.data[rid].snapshot]
      && s.ledger.data[rid] == Entry(resource, l.data[rid].version + 1)
  {
    var pv := l.data[rid].version;
    if ArchiveKey(rid, pv) in History(l.data) {
      var rid', j :| rid' in l.data && 1 <= j < l.data[rid'].version && ArchiveKey(rid, pv) == ArchiveKey(rid', j);
      ArchiveKeyInjective(rid, pv, rid', j);
    }
  }

  /** A registration keeps the ledger well formed: versions stay at least 1 and the archive stays exactly the superseded versions. */
  lemma RegisterPreservesWellFormed<R>(l: Ledger<R>, rid: Option<string>, resource: R, update: bool)
    requires WellFormed(l)
    ensures WellFormed(Register(l, rid, resource, update).ledger)
  {
    var s := Register(l, rid, resource, update);
    if rid.Some? && s.failure.None? {
      var id := rid.value;
      var d, d' := l.data, s.ledger.data;
      if id in d {
        var pv := d[id].version;
        var key := ArchiveKey(id, pv);
        UpdateArchivesPrevious(l, id, resource);
        forall k | k in History(d') ensures k in History(d) + {key} {
          var r, j :| r in d' && 1 <= j < d'[r].version && k == ArchiveKey(r, j);
          if r != id || j != pv {
            assert k in History(d);
          }
        }
        forall k | k in History(d) + {key} ensures k in History(d') {
          if k == key {
            assert id in d' && 1 <= pv < d'[id].version;
          } else {
            var r, j :| r in d && 1 <= j < d[r].version && k == ArchiveKey(r, j);
            assert r in d' && 1 <= j < d'[r].version;
          }
        }
        assert History(d') == History(d) + {key};
      } else {
        forall k | k in History(d') ensures k in History(d) {
          var r, j :| r in d' && 1 <= j < d'[r].version && k == ArchiveKey(r, j);
          assert r != id;
        }
        forall k | k in History(d) ensures k in History(d') {
          var r, j :| r in d && 1 <= j < d[r].version && k == ArchiveKey(r, j);
          assert r in d' && 1 <= j < d'[r].version;
        }
        assert History(d') == History(d);
      }
    }
  }

  // ---------------------------------------------------------------------
  // A batch

  /** A batch is its prefix followed by its suffix: the suffix starts from the ledger the prefix left. */
  lemma {:induction false} RegisterAllAppend<R>(l: Ledger<R>, a: seq<(Option<string>, R)>, b: seq<(Option<string>, R)>, update: bool)
    ensures var first := RegisterAll(l, a, update);
      var second := RegisterAll(first.ledger, b, update);
      RegisterAll(l, a + b, update) == Report(second.ledger, first.failures + second.failures)
  {
    if b != [] {
      var b' := b[..|b| - 1];
      assert (a + b)[..|a + b| - 1] == a + b';
      assert (a + b)[|a + b| - 1] == b[|b| - 1];
      RegisterAllAppend(l, a, b', update);
    } else {
      assert a + b == a;
    }
  }

  /** A batch keeps the ledger well formed. */
  lemma {:induction false} RegisterAllPreservesWellFormed<R>(l: Ledger<R>, batch: seq<(Option<string>, R)>, update: bool)
    requires WellFormed(l)
    ensures WellFormed(RegisterAll(l, batch, update).ledger)
  {
    if batch != [] {
      var before := RegisterAll(l, batch[..|batch| - 1], update);
      RegisterAllPreservesWellFormed(l, batch[..|batch| - 1], update);
      var last := batch[|batch| - 1];
      RegisterPreservesWellFormed(before.ledger, last.0, last.1, update);
    }
  }

  /** Across a batch no identifier is dropped and no archived snapshot is removed or overwritten. */
  lemma {:induction false} RegisterAllKeepsHistory<R>(l: Ledger<R>, batch: seq<(Option<string>, R)>, update: bool)
    requires WellFormed(l)
    ensures var after := RegisterAll(l, batch, update).ledger;
      && l.data.Keys <= after.data.Keys
      && (forall k :: k in l.archives ==> k in after.archives && after.archives[k] == l.archives[k])
  {
    if batch != [] {
      var before := RegisterAll(l, batch[..|batch| - 1], update);
      RegisterAllKeepsHistory(l, batch[..|batch| - 1], update);
      RegisterAllPreservesWellFormed(l, batch[..|batch| - 1], update);
      var last := batch[|batch| - 1];
      RegisterFrame(before.ledger, last.0, last.1, update);
      if last.0.Some? && last.0.value in before.ledger.data && update {
        UpdateArchivesPrevious(before.ledger, last.0.value, last.1);
      }
    }
  }

  /**
   * Two elements with the same new id in one batch: the second sees the
   * first. With `update` it becomes version 2 and the first is archived
   * under `rid_1`; without, the second fails and the first stays.
   */
  lemma RepeatedIdInBatch<R>(l: Ledger<R>, rid: string, first: R, second: R, update: bool)
    requires rid !in l.data
    ensures var r := RegisterAll(l, [(Some(rid), first), (Some(rid), second)], update);
      if update then
        && r.failures == [None, None]
        && r.ledger.data == l.data[rid := Entry(second, 2)]
        && r.ledger.archives == l.archives[ArchiveKey(rid, 1) := first]
      else
        && r.failures == [None, Some(AlreadyExists)]
        && r.ledger.data == l.data[rid := Entry(first, 1)]
        && r.ledger.archives == l.archives
  {
    var batch := [(Some(rid), first), (Some(rid), second)];
    var single := [(Some(rid), first)];
    assert batch[..1] == single;
    assert single[..0] == [];
    assert RegisterAll(l, single[..0], update) == Report(l, []);
    var r1 := RegisterAll(l, single, update);
    assert r1.ledger == Ledger(l.data[rid := Entry(first, 1)], l.archives);
    assert r1.failures == [None];
  }

  /** Registering `snapshots` one after another under one id, starting from an empty store. */
  function SameId<R>(rid: string, snapshots: seq<R>): (batch: seq<(Option<string>, R)>)
    ensures |batch| == |snapshots|
  {
    seq(|snapshots|, i requires 0 <= i < |snapshots| => (Some(rid), snapshots[i]))
  }

  /** The keys `rid_1 .. rid_(n-1)` are those up to `rid_(n-2)` and one more, which is new. */
  lemma ArchiveKeysSnoc(rid: string, n: nat)
    requires n >= 2
    ensures (set j: nat | 1 <= j < n :: ArchiveKey(rid, j))
         == (set j: nat | 1 <= j < n - 1 :: ArchiveKey(rid, j)) + {ArchiveKey(rid, n - 1)}
    ensures ArchiveKey(rid, n - 1) !in (set j: nat | 1 <= j < n - 1 :: ArchiveKey(rid, j))
  {
    var newKey := ArchiveKey(rid, n - 1);
    forall j | 1 <= j < n - 1 ensures ArchiveKey(rid, j) != newKey {
      if ArchiveKey(rid, j) == newKey {
        ArchiveKeyInjective(rid, j, rid, n - 1);
      }
    }
  }

  /**
   * Starting from an empty store, one insert followed by k updates of the
   * same id leaves it at version k + 1, every attempt succeeding, and the
   * archive holding exactly the keys `rid_1 .. rid_k`, key `rid_j` holding
   * the j-th snapshot.
   */
  lemma {:induction false} HistoryOfOneId<R>(rid: string, snapshots: seq<R>)
    requires |snapshots| > 0
    ensures var r := RegisterAll(Empty(), SameId(rid, snapshots), true);
      && r.ledger.data == map[rid := Entry(snapshots[|snapshots| - 1], |snapshots|)]
      && (forall o :: o in r.failures ==> o.None?)
      && r.ledger.archives.Keys == (set j: nat | 1 <= j < |snapshots| :: ArchiveKey(rid, j))
      && (forall j :: 1 <= j < |snapshots| ==> r.ledger.archives[ArchiveKey(rid, j)] == snapshots[j - 1])
  {
    var n := |snapshots|;
    var batch := SameId(rid, snapshots);
    if n == 1 {
      assert batch[..0] == [];
      assert (set j: nat | 1 <= j < 1 :: ArchiveKey(rid, j)) == {};
    } else {
      var prefix := snapshots[..n - 1];
      var last := (Some(rid), snapshots[n - 1]);
      assert batch == SameId(rid, prefix) + [last];
      HistoryOfOneId(rid, prefix);
      RegisterAllSnoc(Empty(), SameId(rid, prefix), last, true);
      ArchiveKeysSnoc(rid, n);
    }
  }
}
