# nexus-forge store core, in Dafny

This project models the following parts of the nexus-forge store layer.

- **DemoStore ledger.** `DemoStore` is the in-memory store. It keeps a versioned ledger in two dictionaries:
  - `_data` maps an identifier to `(resource, version)`;
  - `_archives` maps `f"{rid}_{pv}"` to the snapshot that version `pv` held.
- **Registration.** `register(data, update)` dispatches one resource or a list of them.
  - Each attempt goes through `run`. `run` is modelled as setting `_synchronized` on success and recording `_last_action` whatever the outcome.
  - A list is registered element by element, in order, and a failure never stops the rest.
  - `update(data)` is `register(data, update=True)`.
- **Query rewriting.** `rewrite_sparql(query, context, prefixes)` rewrites the vocabulary terms of a SPARQL query through a JSON-LD context. It puts the prefix table in front as `PREFIX` lines.
- **Freezing.** Freezing a resource stamps its identifier, and the identifier of every resource it reaches through its provenance relations, with that resource's recorded version: `id?_version=n`.

Files:
- `wrappers.dfy`: `Option` and `Result`.
- `text.dfy`: decimal text of naturals and the last occurrence of a character. These are what make archive keys and version stamps decodable.
- `ledger.dfy`, module `VersionedLedger`: `_register` and the `_register_many` loop, as functions on a ledger value, with their lemmas.
- `demo_store.dfy`, module `DemoStore`:
  - class `DemoStore`, with the two dictionaries as `map` fields;
  - class `Resource`, carrying the flags `run` writes.
  Every method is proved against the ledger functions. `RegisterMany` is the loop.
- `sparql_rewrite.dfy`, module `SparqlRewrite`: the lexer, the term rewriting, the prefix header and `RewriteSparql`.
- `rewrite_cases.dfy`, module `RewriteCases`: the five cases of `test_rewrite_sparql`, each proved on the test's strings. Each string is written as a concatenation of short literals, one per pair of tokens; the concatenation is the test's string.
- `freeze.dfy`, module `Freezing`: stamping, its inverse, and the all-or-nothing freeze walk over a resource tree.
- `freeze_scenario.dfy`, module `FreezeScenario`: the `test_freeze` scenario.

## Model

| member | source | states |
|---|---|---|
| VersionedLedger.ArchiveKey | kgforge/specializations/stores/demo_store.py:49 | The archive key `f"{rid}_{pv}"`: the id, `_`, and the version in decimal. ArchiveKeyInjective proves that it identifies its id and version. |
| VersionedLedger.Register | kgforge/specializations/stores/demo_store.py:44-54 | One `_register` call: a resource without an id fails; a present id fails without `update`, and otherwise archives the previous snapshot under `rid_pv` and stores the new one at `pv + 1`; a new id is stored at version 1. RegisterOutcome, RegisterFrame, UpdateArchivesPrevious and RegisterPreservesWellFormed state its properties. |
| VersionedLedger.RegisterAll | kgforge/specializations/stores/demo_store.py:35-36 | The `_register_many` loop: one outcome per element, every element attempted, in list order. RegisterAllAppend, RegisterAllPreservesWellFormed and RegisterAllKeepsHistory state its properties. |
| VersionedLedger.ArchiveKeyInjective | kgforge/specializations/stores/demo_store.py:49 | Two archive keys `f"{rid}_{pv}"` are equal only when both the ids and the versions are equal. |
| VersionedLedger.RegisterOutcome | kgforge/specializations/stores/demo_store.py:44-54 | An attempt fails exactly when the resource has no id, or its id is present and `update` is false. `AlreadyExists` is exactly the second case. A failed attempt leaves the ledger unchanged. An accepted attempt stores the resource at version 1 for a new id, or at the previous version + 1. A new id leaves the archive alone. |
| VersionedLedger.RegisterFrame | kgforge/specializations/stores/demo_store.py:44-54 | Only the registered id's entry changes. No key leaves `_data` or `_archives`. At most one archive key is added. |
| VersionedLedger.UpdateArchivesPrevious | kgforge/specializations/stores/demo_store.py:47-50 | On a well-formed ledger, an update stores the previous snapshot under `rid_pv` and bumps the version to `pv + 1`. That key was not taken before, so no older snapshot is overwritten. |
| VersionedLedger.RegisterPreservesWellFormed | kgforge/specializations/stores/demo_store.py:44-54 | Every registration keeps two facts: all versions are at least 1, and the archive keys are exactly `rid_1 .. rid_(v-1)` for each stored `rid` at version `v`. |
| VersionedLedger.RegisterAllAppend | kgforge/specializations/stores/demo_store.py:35-36 | A batch splits anywhere: the second part starts from the ledger the first part left, and the outcomes concatenate. |
| VersionedLedger.RegisterAllPreservesWellFormed | kgforge/specializations/stores/demo_store.py:35-36 | A whole batch keeps the ledger well formed. |
| VersionedLedger.RegisterAllKeepsHistory | kgforge/specializations/stores/demo_store.py:35-54 | A batch drops no identifier and never removes or overwrites an archived snapshot. |
| VersionedLedger.RepeatedIdInBatch | kgforge/specializations/stores/demo_store.py:35-54 | A new id listed twice in one batch: the second attempt sees the first. With `update`, it becomes version 2 and the first snapshot is archived under `rid_1`. Without `update`, the second attempt fails and the first stays. |
| VersionedLedger.HistoryOfOneId | kgforge/specializations/stores/demo_store.py:44-54 | Starting from an empty store, one insert and then k updates of one id: every attempt succeeds and the id is at version k + 1. The archive holds exactly `rid_1 .. rid_k`, where `rid_j` holds the j-th snapshot. |
| DemoStore.DemoStore.constructor | kgforge/specializations/stores/demo_store.py:21-22 | The store starts with both dictionaries empty. |
| DemoStore.DemoStore.RegisterEntry | kgforge/specializations/stores/demo_store.py:44-54 | `_register` changes the two map fields exactly as one ledger registration does, returns its failure, and keeps the ledger well formed. |
| DemoStore.DemoStore.Run | kgforge/specializations/stores/demo_store.py:36 | One attempt through `run`. The store changes as one registration. The resource's last action records the outcome. `_synchronized` is set when the attempt succeeds and otherwise keeps its value (the reading of `run` noted under Left out). |
| DemoStore.DemoStore.RegisterOne | kgforge/specializations/stores/demo_store.py:39-41 | `_register_one` is one `run` attempt, with the same new state. |
| DemoStore.DemoStore.RegisterMany | kgforge/specializations/stores/demo_store.py:34-37 | The loop leaves the store as the batch registration of the list, in order. Every element whose attempt succeeded is synchronized. The last occurrence of each resource carries its own attempt's outcome. |
| DemoStore.DemoStore.RegisterNext | kgforge/specializations/stores/demo_store.py:35-36 | One turn of the loop, the attempt on element i. The batch registration of elements 0 .. i becomes the registration of 0 .. i-1 followed by element i. The flags stay recorded as above. |
| DemoStore.DemoStore.Register | kgforge/specializations/stores/demo_store.py:26-32 | `register` on one resource or on a list has the effect of registering that list, whichever way `dispatch` sends it. |
| DemoStore.DemoStore.Update | kgforge/specializations/stores/demo_store.py:88-91 | `update` has exactly the effect of `register` with `update=True`. |
| SparqlRewrite.Lex | tests/core/archetypes/test_store.py:57-66 | Splits a query into its longest tokens: spaces, words, variables, `<…>` IRIs, quoted literals, the path separator `/` and single punctuation characters. RenderLex and LexRender state its properties. |
| SparqlRewrite.RenderLex | tests/core/archetypes/test_store.py:57-66 | Lexing loses nothing: the texts of the tokens give back the query, character for character. |
| SparqlRewrite.LexRender | tests/core/archetypes/test_store.py:57-66 | A canonical token sequence is what the lexer reads back from its own text. |
| SparqlRewrite.RewriteKeeps | tests/core/archetypes/test_store.py:57-66 | IRIs, literals, variables, punctuation and words without a definition (`SELECT`, `WHERE`, `FILTER`, `regex`) are their own rewrite. |
| SparqlRewrite.RewriteToken | tests/core/archetypes/test_store.py:25-43 | Rewrites one token through the context: only a word naming a defined term changes. RewriteKeeps and RewriteTerm state what it does to each kind of token. |
| SparqlRewrite.RewriteTokens | tests/core/archetypes/test_store.py:57-66 | Rewrites a token sequence, one output token per input token. RewriteTokensPointwise states it token by token. |
| SparqlRewrite.RewriteTerm | tests/core/archetypes/test_store.py:25-43 | A defined term becomes its definition's identifier: a string definition or an `@id`. A compact IRI stays as written. An absolute IRI goes between angle brackets. A definition without `@id` is an error. |
| SparqlRewrite.RewriteTokensPointwise | tests/core/archetypes/test_store.py:61-64 | The rewrite is token by token, so the two sides of a property path `agent/name` are rewritten independently. It succeeds iff every token does, and then output token i is input token i rewritten. |
| SparqlRewrite.RewriteSparql | tests/core/archetypes/test_store.py:70-73 | `rewrite_sparql(query, context, prefixes)`: the prefix header, a line break, then the rewritten query, or the first term error. RewriteSparqlShape and RewriteSparqlDeclaresAll state its shape. |
| SparqlRewrite.RewriteSparqlShape | tests/core/archetypes/test_store.py:57-66 | The result is the header, a line break, then the rewritten query. A token that is not a term appears in the result unchanged, between the rewrites of its neighbours. |
| SparqlRewrite.Header | tests/core/archetypes/test_store.py:53 | The prefix header: one `PREFIX k: <v>` line per table entry, joined by `"\n"`. HeaderLines and RewriteSparqlDeclaresAll state its properties. |
| SparqlRewrite.RewriteSparqlDeclaresAll | tests/core/archetypes/test_store.py:53-58 | A successful rewrite starts with one `PREFIX k: <v>` line per table entry, in table order, for every entry, whether the query uses it or not. When the table is not empty, the lines after them are exactly the lines of the rewritten query. |
| SparqlRewrite.HeaderLines | tests/core/archetypes/test_store.py:53 | Splitting the header at line breaks gives back the prefix lines, so the header is those lines joined by `"\n"`. |
| RewriteCases.TestHeader | tests/core/archetypes/test_store.py:46-53 | The header for the test table is the test's `prefixes_string`: `PREFIX rdf: <…>`, `PREFIX prov: <…>` and `PREFIX schema: <…>` with the table's IRIs, joined by line breaks. |
| RewriteCases.ReadsAll | tests/core/archetypes/test_store.py:70-73 | For a query built from tokens that each read into an expected token, its text lexes back into those tokens. The rewrite answers the header + `"\n"` + the expected text. |
| RewriteCases.DescriptionTerm | tests/core/archetypes/test_store.py:41 | The term `description`, defined by an absolute IRI, becomes `<http://schema.org/description>`. |
| RewriteCases.Case1 | tests/core/archetypes/test_store.py:57-58 | `SELECT ?agent WHERE { <http://exaplpe.org/1234> agent ?agent }` lexes into the case's tokens. Its rewrite is `prefixes_string` + `"\n"` + the test's expected string, in which `agent` became `prov:agent` and the angle-bracket IRI is kept. |
| RewriteCases.Case2 | tests/core/archetypes/test_store.py:59-60 | The second query string: its rewrite is `prefixes_string` + `"\n"` + the expected string, with `type` → `rdf:type` and `Person` → `schema:Person` inside `FILTER(?v0 != …)`. |
| RewriteCases.Case3 | tests/core/archetypes/test_store.py:61-62 | The third query string: `type`, `Association`, and both segments of the path `agent/name` are replaced, as in the expected string. |
| RewriteCases.Case4 | tests/core/archetypes/test_store.py:63-64 | The fourth query string: the path is rewritten; the literals `"^j"`, `"i"` and `regex` are kept, as in the expected string. |
| RewriteCases.Case5 | tests/core/archetypes/test_store.py:65-66 | The fifth query string: `description` becomes `<http://schema.org/description>`, as in the expected string. |
| Freezing.StampId | tests/core/archetypes/test_store.py:127-131 | The stamp `id?_version=n`: longer than the id, and starting with it. SplitStampId and StampIdInjective state that it can be read back. |
| Freezing.StampEntity | tests/core/archetypes/test_store.py:124-131 | Stamps a resource and, depth first, every resource its relations reach. StampEntityCorrect states what it returns. |
| Freezing.Freeze | tests/core/archetypes/test_store.py:124-131 | Freezing a resource: an unsynchronized root is refused, otherwise the tree is stamped. FreezeCorrect, FrozenTarget and FreezeMissingVersion state its properties. |
| Freezing.SplitStampId | tests/core/archetypes/test_store.py:126-131 | A stamp `id?_version=n` decodes back to `(id, n)`: the last `?` separates them. |
| Freezing.StampIdInjective | tests/core/archetypes/test_store.py:126-131 | Two stamps are equal only when both the ids and the versions are equal. |
| Freezing.StampEntityCorrect | tests/core/archetypes/test_store.py:124-131 | Stamping a tree succeeds iff every node has an id and a recorded version. The result is then the stamped copy: every id stamped with its own version, every node unsynchronized, everything else unchanged. |
| Freezing.StampRelationsCorrect | tests/core/archetypes/test_store.py:127-131 | Stamping a list of relations succeeds iff every target can be stamped. Each relation keeps its attribute, kind and role, and its target becomes the stamped copy. |
| Freezing.FreezeCorrect | tests/core/archetypes/test_store.py:124-131 | Freezing succeeds iff the root is synchronized and every reachable resource is stampable. It is all or nothing: a success returns the whole stamped copy. |
| Freezing.FrozenTarget | tests/core/archetypes/test_store.py:127-131 | After a freeze, each relation's target carries its own id stamped with its own version. |
| Freezing.StampedIdReadsBack | tests/core/archetypes/test_store.py:126-131 | In a stamped copy, each id reads back as the original id and version. |
| Freezing.FreezeMissingVersion | tests/core/archetypes/test_store.py:124-127 | Under the freeze preconditions assumed below (every reached resource needs an identifier and a recorded version), a related resource without a recorded version makes the whole freeze fail. |
| Freezing.AddRelation | tests/core/archetypes/test_store.py:102-105 | Adding a relation appends it with the given attribute, kind and role, and keeps the earlier relations and the resource's id, type, name, version and `_synchronized` flag. Its target carries the plain, unstamped id. |
| FreezeScenario.RelationsBeforeFreeze | tests/core/archetypes/test_store.py:102-122 | Before the freeze, the dataset's four relations hold these references: `entity` {id, type, name} for the derivation; `activity` {id, type} for the generation and the invalidation; `agent` {id, type} for the contribution. All ids are plain. |
| FreezeScenario.FreezeDataset | tests/core/archetypes/test_store.py:124-127 | The dataset, synchronized with id `http://dataset`, freezes into `http://dataset?_version=1` and is then unsynchronized. |
| FreezeScenario.FrozenDatasetTarget | tests/core/archetypes/test_store.py:128-131 | Each of the four relations keeps its attribute and role, and its target ends with `?_version=1` appended to its plain id. |
| FreezeScenario.FrozenDerivation | tests/core/archetypes/test_store.py:128 | `dataset.derivation.entity.id` is `http://derivation1?_version=1`. |
| FreezeScenario.FrozenGeneration | tests/core/archetypes/test_store.py:129 | `dataset.generation.activity.id` is `http://generation1?_version=1`. |
| FreezeScenario.FrozenContribution | tests/core/archetypes/test_store.py:130 | `dataset.contribution.agent.id` is `http://contribution1?_version=1`. |
| FreezeScenario.FrozenInvalidation | tests/core/archetypes/test_store.py:131 | `dataset.invalidation.activity.id` is `http://invalidation1?_version=1`. |

## Left out

- **Stubs.** `upload`, `_upload_many`, `_upload_one`, `download`, `tag`, `deprecate`, `sparql` and `DemoStore.freeze` only call `not_supported()`, so they have no behaviour to model. The `Path.is_dir` test in `upload` is file-system I/O.
- **Abstract and placeholder members.** `retrieve` and `search` are abstract, and `files_mapping` is a placeholder string.
- **Printing.** The `print` calls in `_register_many` and `_register_one` are output only.
- **`run`, `Actions` and `dispatch`.** These come from modules that are not part of this model.
  - `run` is modelled as one `_register` attempt: on success it sets `_synchronized`; every attempt records `_last_action`. A failure is recorded and the batch continues.
  - The text of a failure message other than "resource already exists" is illustrative.
- DemoStore.DemoStore.Run: that a failed attempt leaves `_synchronized` as it was is the reading adopted for `run`, whose source is not part of this model, not something the store's code states.
- DemoStore.DemoStore.RegisterMany: the contract does not state that a resource whose attempts in the list all failed keeps its `_synchronized` value; `Run` states it for each attempt.
- **`Resource` identity.** A resource without an `id` attribute fails with `MissingIdentifier`, recorded like any other failure.
  - Python's `rid in self._data` would also accept `None` as a key.
  - The model treats an absent id as a failed attempt rather than storing it under `None`.
- **Object references.** The archive and the store hold references to the same resource objects. The ledger keeps the reference, not a deep copy, which matches the source. Later mutation of a stored resource through another alias is not modelled.
- **rewrite_sparql source.** `kgforge/core/archetypes/store.py`, which defines `rewrite_sparql`, is not part of this model. The rewriter is modelled from its five test cases and the context and prefix fixtures.
  - The lexer's treatment of escapes inside literals and of triple-quoted literals is not modelled.
  - A quoted literal left unclosed runs to the end of the query. An unclosed `<` is a punctuation token, and the text after it is lexed normally.
- **Prefix compaction.** The rewriter adds no prefix minimisation or compaction of full IRIs. The tests show the full table is always emitted, and the absolute IRI of `description` is kept in full.
- **Freeze walk source.** `Store.freeze` in `kgforge/core/archetypes/store.py` is not part of this model. The walk is modelled from the `test_freeze` scenario as a function returning the stamped tree:
  - in-place mutation of the objects is not modelled;
  - aliasing between relation references and the original resources is not modelled;
  - the tree cannot be cyclic.
- **Freeze behaviours not modelled.** The visited set for shared or cyclic sub-resources, the failure on an already-frozen identifier, rollback of partial stamps, and clearing `_validated` are left out. `SplitStamp` recognises a stamped identifier, but `Freeze` does not refuse one.
- **Freeze preconditions.** Requiring a synchronized root, and an identifier and recorded version on every reached resource, are modelling assumptions:
  - the test sets `_synchronized = True` before freezing;
  - every resource in the scenario carries store metadata.
- **Scenario version.** The recorded version 1 in the freeze scenario comes from the expected `?_version=1`. The `store_metadata_value` fixture is not part of this model.
- **`Dataset.add_*` and `forge.as_json`.** These are modelled only as `AddRelation` with an unversioned reference, shaped like the test's expected JSON. The `versioned=True` path is not modelled.
