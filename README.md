# neo4j-uuid identifier engine, in Dafny

This project models the commit-time identifier engine of the GraphAware
neo4j-uuid plugin for Neo4j. It covers both generations of the engine: the
`UuidModule` and the newer `GuidModule`.

- **Commit hook (`beforeCommit`).** Every node and relationship created in a
  transaction gets an identifier property. The value is either freshly
  generated, or a value the user preset, which is checked against the
  identifier index of its kind. Deleted entities leave the index. A
  transaction that removes or modifies an identifier is rolled back. Nodes
  are processed completely before relationships, and the first rollback
  stops everything.
- **Backfill (`initialize`).** The same assign step runs over every existing
  entity that the inclusion policy admits.
- **Identifier index.** There is one legacy (explicit) index per entity kind.
  The model covers the `LegacyIndexer`/`ExplicitIndexer` classes that add
  entries, remove them and look them up (first hit, or `getSingle`).
- **Generators.** There are the random UUID generators, the GUID sequence
  generator (a find-or-create counter node) and the UUID sequence generator
  (a Cypher `MERGE` counter with a bounded deadlock retry).
- **Readers.** These turn an identifier into an entity id or a `NotFound`
  error.
- **Configuration records and bootstrappers.** The records are immutable,
  with single-field `with*` updates. The bootstrappers parse the
  configuration map into a record.

How the model is structured:

- The graph store is a `Database` object holding
  `map<EntityRef, map<string, Value>>`.
- Each kind's index is a `KindIndex` object. Its state is a value
  `IndexState(present, entries)`.
- The modules are classes whose methods loop over the transaction diff as
  the Java does.
- Each method is proved equal to a pure specification, taken over a
  snapshot of the store, the two indexes and the generators:
  - `Hook.BeforeCommit`, `Hook.Initialize`, `UuidAssign.AssignUuid` and
    `GuidAssign.AssignGuid`;
  - a `Run` that pairs the outcome (`Proceed` or `Rollback(failure)`) with
    the new state.
- The properties of the hook are lemmas about that specification, in
  `HookProperties`. One specification serves both modules: a `Hook.Assigner`
  picks between the UUID step and the GUID step.
- A rollback undoes the whole transaction: the store, both indexes and the
  sequence counter nodes. The random generators are not transactional and
  keep their position. `Commit.Committed` says what survives.

## Model

| member | source | states |
|---|---|---|
| UuidModule.UuidModule.constructor | src/main/java/com/graphaware/module/uuid/UuidModule.java:52-57 | the module keeps its configuration and a random generator, and its indexer uses the configured identifier property on two distinct per-kind indexes |
| UuidModule.UuidModule.AssignUuid | src/main/java/com/graphaware/module/uuid/UuidModule.java:144-176 | the store, both indexes and the generator end exactly as `UuidAssign.AssignUuid` says, with the same outcome |
| UuidModule.UuidModule.AssignCreated | src/main/java/com/graphaware/module/uuid/UuidModule.java:102-104 | the loop over the created entities of one kind equals `Hook.AssignAll` on them in order, stopping at the first rollback |
| UuidModule.UuidModule.DeleteFromIndex | src/main/java/com/graphaware/module/uuid/UuidModule.java:106-108 | after the loop, that kind's index is `DeleteAll` of the deleted ids; the other index and the store are unchanged |
| UuidModule.UuidModule.CheckChanged | src/main/java/com/graphaware/module/uuid/UuidModule.java:111-119 | the failure found is `Commit.CheckChanges`: the first change that removes the identifier, lacks a previous value, or modifies it |
| UuidModule.UuidModule.ProcessKind | src/main/java/com/graphaware/module/uuid/UuidModule.java:101-119 | created, then deleted, then changed entities of one kind give exactly `Hook.KindPhase` |
| UuidModule.UuidModule.BeforeCommit | src/main/java/com/graphaware/module/uuid/UuidModule.java:99-142 | the outcome and new state are exactly `Hook.BeforeCommit`: nodes first, then relationships unless the nodes rolled back |
| UuidModule.UuidModule.AssignAdmitted | src/main/java/com/graphaware/module/uuid/UuidModule.java:72-81 | the backfill loop equals `AssignAll` over exactly the entities the inclusion policy admits, in order |
| UuidModule.UuidModule.Initialize | src/main/java/com/graphaware/module/uuid/UuidModule.java:71-93 | the backfill of nodes, then relationships, equals `Hook.Initialize` |
| GuidModule.InstantiateGuidGenerator | src/main/java/com/graphaware/module/guid/GuidModule.java:61-83 | a generator is found iff the name is the class name of a shipped generator; any other name yields "Unable to instantiate GuidGenerator of type '<name>'" |
| GuidModule.InstantiateClassName | src/main/java/com/graphaware/module/guid/GuidModule.java:61-83 | each shipped generator is instantiated from its own class name, so the registry and the names agree |
| GuidModule.DefaultGeneratorIsEaio | src/main/java/com/graphaware/module/guid/GuidConfiguration.java:29 | the default configuration instantiates the Eaio UUID generator |
| GuidModule.GuidModule.constructor | src/main/java/com/graphaware/module/guid/GuidModule.java:54-59 | it is built only from a generator that `instantiateGuidGenerator` resolved; the indexer uses the configured GUID property on two distinct per-kind indexes |
| GuidModule.GuidModule.AssignGuid | src/main/java/com/graphaware/module/guid/GuidModule.java:174-184 | the store, both indexes and both generators end exactly as `GuidAssign.AssignGuid` says, with the same outcome |
| GuidModule.GuidModule.AssignNewGuid | src/main/java/com/graphaware/module/guid/GuidModule.java:186-195 | a generator failure rolls back and changes nothing; otherwise the generator advances and the entity holds `Stored(guid, stripHyphens)`, and nothing else changes |
| GuidModule.GuidModule.HandleExistingGuid | src/main/java/com/graphaware/module/guid/GuidModule.java:197-209 | the lookup is by the value's string form. Several hits give `AmbiguousLookup`. A hit on another entity gives `AlreadyExists` naming it. Otherwise the outcome is `Proceed`. Nothing changes |
| GuidModule.GuidModule.AssignCreated | src/main/java/com/graphaware/module/guid/GuidModule.java:132-134 | the loop over the created entities of one kind equals `Hook.AssignAll`, stopping at the first rollback |
| GuidModule.GuidModule.DeleteFromIndex | src/main/java/com/graphaware/module/guid/GuidModule.java:136-138 | that kind's index becomes `DeleteAll` of the deleted ids; all else is unchanged |
| GuidModule.GuidModule.CheckChanged | src/main/java/com/graphaware/module/guid/GuidModule.java:141-149 | the failure found is `Commit.CheckChanges` over the changed entities |
| GuidModule.GuidModule.ProcessKind | src/main/java/com/graphaware/module/guid/GuidModule.java:131-149 | the three loops of one kind give exactly `Hook.KindPhase` |
| GuidModule.GuidModule.BeforeCommit | src/main/java/com/graphaware/module/guid/GuidModule.java:129-172 | the outcome and new state are exactly `Hook.BeforeCommit` |
| GuidModule.GuidModule.AssignAdmitted | src/main/java/com/graphaware/module/guid/GuidModule.java:102-111 | the backfill loop equals `AssignAll` over exactly the admitted entities |
| GuidModule.GuidModule.Initialize | src/main/java/com/graphaware/module/guid/GuidModule.java:101-123 | the backfill of nodes, then relationships, equals `Hook.Initialize` |
| UuidAssign.AssignUuid | src/main/java/com/graphaware/module/uuid/UuidModule.java:144-176 | covers both the absent and the preset case, with three results: (1) without the property, the entity gets the next generated value and one generator call is used; (2) with a preset value, nothing in the store or generator changes, and the step rolls back iff the first index hit is another entity of its kind; (3) on success the entity is indexed under its value's string form, and the other kind's index is untouched |
| GuidAssign.AssignGuid | src/main/java/com/graphaware/module/guid/GuidModule.java:174-209 | covers both the absent and the preset case: (1) without the property, a generator failure rolls back unchanged, and otherwise the stored value is `Stored(generated)`; (2) with a preset value, the store and generators are unchanged, and the step rolls back iff `getSingle` fails or finds another entity; (3) on success the entity is indexed and the other index is untouched |
| GuidAssign.Generate | src/main/java/com/graphaware/module/guid/GuidModule.java:188 | a random generator hands out its next draw; the sequence generator fails exactly when its own step fails, and otherwise yields its number and counter state |
| GuidAssign.Stored | src/main/java/com/graphaware/module/guid/GuidModule.java:188-194 | a number is stored as generated; a string loses its hyphens iff stripping is configured |
| GuidAssign.StripHyphens | src/main/java/com/graphaware/module/guid/GuidModule.java:191 | the result has no '-', is no longer than the input, and keeps exactly the input's other characters |
| GuidAssign.StripHyphensKeepsHyphenFree | src/main/java/com/graphaware/module/guid/GuidModule.java:191 | a string without hyphens is left unchanged |
| GuidAssign.StripHyphensIdempotent | src/main/java/com/graphaware/module/guid/GuidModule.java:191 | stripping twice is stripping once |
| GuidAssign.StripHyphensConcat | src/main/java/com/graphaware/module/guid/GuidModule.java:191 | stripping distributes over concatenation |
| GuidAssign.StripHyphensSeparator | src/main/java/com/graphaware/module/guid/GuidModule.java:191 | a hyphen between two pieces disappears |
| GuidAssign.StripHyphensCanonicalUuid | src/main/java/com/graphaware/module/guid/GuidModule.java:190-192 | a canonical UUID (five hyphen-free groups) becomes its groups concatenated in order |
| Hook.Assign | src/main/java/com/graphaware/module/uuid/UuidModule.java:144-176 | the step common to both modules. It keeps every entity and every existing property of every entity. It touches only the given entity and that kind's index, only adding entries for that entity. A rollback changes nothing. Success leaves the entity holding the property and indexed under it. A preset value already indexed for another entity always rolls back |
| Hook.AssignAll | src/main/java/com/graphaware/module/uuid/UuidModule.java:102-104 | assigning a list keeps the entity set and the properties already present. Entities outside the list are untouched, and so is the other kind's index. Index entries only grow, and only with ids from the list |
| Hook.Included | src/main/java/com/graphaware/module/uuid/UuidModule.java:77 | an id is included iff it is listed and the inclusion policy admits its entity |
| Hook.AssignAdmittedStep | src/main/java/com/graphaware/module/guid/GuidModule.java:107 | one backfill step assigns an admitted entity first and skips a refused one |
| Commit.IndexEntity | src/main/java/com/graphaware/module/guid/GuidModule.java:183 | `index` adds the entity under its value's string form to its own kind's index only |
| Commit.DeleteAll | src/main/java/com/graphaware/module/uuid/UuidModule.java:106-108 | after deleting a list of entities, exactly the entries of the other entities remain |
| Commit.CheckChange | src/main/java/com/graphaware/module/uuid/UuidModule.java:112-118 | a change fails iff the identifier was not kept. It is checked in the source's order: removed, then no previous value, then modified |
| Commit.Committed | src/main/java/com/graphaware/module/guid/GuidModule.java:129-172 | a proceeding hook commits its state; a rollback restores the store, both indexes and the sequence counters, while random draws already handed out stay used |
| Commit.CheckChanges | src/main/java/com/graphaware/module/uuid/UuidModule.java:111-119 | no failure iff every change keeps the identifier; otherwise the failure is that of the first change that does not |
| HookProperties.AssignAllIdentifies | src/main/java/com/graphaware/module/uuid/UuidModule.java:102-104 | after a successful pass every listed entity holds the property and is indexed under it |
| HookProperties.AssignAllIdle | src/main/java/com/graphaware/module/uuid/UuidModule.java:151-173 | entities that already hold the property keep the store and the generators unchanged |
| HookProperties.InitializeIdentifies | src/main/java/com/graphaware/module/uuid/UuidModule.java:71-93 | after a successful backfill every admitted node and relationship holds the property |
| HookProperties.InitializeTwice | src/main/java/com/graphaware/module/uuid/UuidModule.java:77-89 | a second backfill changes no value and makes no generator call |
| HookProperties.DuplicateOfIndexedRollsBack | src/main/java/com/graphaware/module/uuid/UuidModule.java:152-172 | a created entity preset to a value already indexed for another entity rolls the pass back |
| HookProperties.DuplicatePresetRollsBack | src/main/java/com/graphaware/module/guid/GuidModule.java:197-208 | two created entities of one kind preset to the same value roll the pass back |
| HookProperties.DuplicatePresetAborts | src/main/java/com/graphaware/module/guid/GuidModule.java:129-172 | two such entities abort the whole commit: the store, both indexes and the sequence counters committed are those from before the transaction |
| HookProperties.KindPhaseFrame | src/main/java/com/graphaware/module/uuid/UuidModule.java:101-119 | a kind phase keeps the entity set and leaves the other kind's index alone |
| HookProperties.ExistingPropertiesKept | src/main/java/com/graphaware/module/uuid/UuidModule.java:99-142 | the hook never changes or removes a property an entity already had |
| HookProperties.CreatedIdentified | src/main/java/com/graphaware/module/uuid/UuidModule.java:102-104 | on success every created node and relationship that was not also deleted holds the property and is indexed under it |
| HookProperties.DeletedUnindexed | src/main/java/com/graphaware/module/uuid/UuidModule.java:106-108 | on success no index entry names a deleted entity, so no lookup returns one |
| HookProperties.ChangesGuarded | src/main/java/com/graphaware/module/uuid/UuidModule.java:111-139 | on success every changed entity kept its identifier; any removed or modified identifier means rollback |
| HookProperties.NodeFailureSparesRelationships | src/main/java/com/graphaware/module/guid/GuidModule.java:131-171 | if the node phase rolls back, no relationship is processed |
| HookProperties.AssignKeepsUnique | src/main/java/com/graphaware/module/uuid/UuidModule.java:144-176 | an assign step keeps an index that maps each value to at most one entity that way, provided generated values are fresh |
| LegacyIndex.WithEntry | src/main/java/com/graphaware/module/uuid/index/LegacyIndexer.java:59-61 | adding creates the index if missing and adds exactly one entry, idempotently |
| LegacyIndex.WithoutEntity | src/main/java/com/graphaware/module/uuid/index/LegacyIndexer.java:86-88 | removing an entity drops exactly its entries |
| LegacyIndex.FirstHit | src/main/java/com/graphaware/module/uuid/index/LegacyIndexer.java:67-80 | no hit iff the index is missing or holds no entry for the value; a hit is an entity indexed under the value |
| LegacyIndex.SingleHit | src/main/java/com/graphaware/module/guid/index/LegacyIndexer.java:49-51 | `getSingle`: there is an error iff two entities share the value. No hit iff there is none. A hit is the only entity with the value |
| LegacyIndex.FirstHitAppend | src/main/java/com/graphaware/module/uuid/index/LegacyIndexer.java:71-73 | earlier entries win the first-hit lookup |
| LegacyIndex.LookupAfterAdd | src/main/java/com/graphaware/module/guid/index/LegacyIndexer.java:41-51 | index-then-lookup returns the indexed entity, both as first hit and as single hit, when no other entity holds the value |
| LegacyIndex.LookupOtherAfterAdd | src/main/java/com/graphaware/module/uuid/index/LegacyIndexer.java:59-80 | once the index exists, adding one value leaves the lookups of other values unchanged |
| LegacyIndex.LookupAfterRemove | src/main/java/com/graphaware/module/guid/index/LegacyIndexer.java:49-59 | after an entity is removed, no lookup returns it |
| LegacyIndex.AddKeepsUnique | src/main/java/com/graphaware/module/guid/index/LegacyIndexer.java:41-43 | adding keeps the index one-entity-per-value iff no other entity already holds the value |
| LegacyIndex.UniqueFirstHitIsOnly | src/main/java/com/graphaware/module/guid/index/LegacyIndexer.java:49-51 | in a one-entity-per-value index, the first hit is the single hit |
| LegacyIndex.KindIndex.Add | src/main/java/com/graphaware/module/uuid/index/LegacyIndexer.java:60 | the index state becomes `WithEntry` of the old state |
| LegacyIndex.KindIndex.Remove | src/main/java/com/graphaware/module/uuid/index/LegacyIndexer.java:87 | the index state becomes `WithoutEntity` of the old state |
| UuidIndex.LegacyIndexer.IndexNode | src/main/java/com/graphaware/module/uuid/index/LegacyIndexer.java:59-61 | the node index gains the node under its current value's string form; the relationship index is unchanged |
| UuidIndex.LegacyIndexer.IndexRelationship | src/main/java/com/graphaware/module/uuid/index/LegacyIndexer.java:94-96 | the relationship index gains the relationship; the node index is unchanged |
| UuidIndex.LegacyIndexer.Index | src/main/java/com/graphaware/module/uuid/UuidModule.java:175 | indexing dispatches on the kind and touches only that kind's index |
| UuidIndex.LegacyIndexer.GetNodeByUuid | src/main/java/com/graphaware/module/uuid/index/LegacyIndexer.java:67-80 | the first hit for the value, or nothing when there is no entry or no index; changes nothing |
| UuidIndex.LegacyIndexer.GetRelationshipByUuid | src/main/java/com/graphaware/module/uuid/index/LegacyIndexer.java:110-128 | the first hit in the relationship index (endpoints unconstrained), or nothing |
| UuidIndex.LegacyIndexer.DeleteNodeFromIndex | src/main/java/com/graphaware/module/uuid/index/LegacyIndexer.java:86-88 | the node index drops the node's entries; the relationship index is unchanged |
| UuidIndex.LegacyIndexer.DeleteRelationshipFromIndex | src/main/java/com/graphaware/module/uuid/index/LegacyIndexer.java:102-104 | the relationship index drops the relationship's entries; the node index is unchanged |
| UuidIndex.LegacyIndexer.DeleteFromIndex | src/main/java/com/graphaware/module/uuid/UuidModule.java:106-108 | deletion dispatches on the kind and touches only that kind's index |
| UuidIndex.ExplicitIndexer.IndexNode | src/main/java/com/graphaware/module/uuid/index/ExplicitIndexer.java:53-55 | the node index gains the node under its value |
| UuidIndex.ExplicitIndexer.IndexRelationship | src/main/java/com/graphaware/module/uuid/index/ExplicitIndexer.java:86-88 | the relationship index gains the relationship under its value |
| UuidIndex.ExplicitIndexer.GetNodeByUuid | src/main/java/com/graphaware/module/uuid/index/ExplicitIndexer.java:61-72 | the first hit, or nothing when there is none or the index is missing |
| UuidIndex.ExplicitIndexer.GetRelationshipByUuid | src/main/java/com/graphaware/module/uuid/index/ExplicitIndexer.java:102-113 | the first hit in the relationship index, or nothing |
| UuidIndex.ExplicitIndexer.DeleteNodeFromIndex | src/main/java/com/graphaware/module/uuid/index/ExplicitIndexer.java:78-80 | the node index drops the node's entries |
| UuidIndex.ExplicitIndexer.DeleteRelationshipFromIndex | src/main/java/com/graphaware/module/uuid/index/ExplicitIndexer.java:94-96 | the relationship index drops the relationship's entries |
| GuidIndex.LegacyIndexer.IndexNode | src/main/java/com/graphaware/module/guid/index/LegacyIndexer.java:41-43 | the node index gains the node under its value; the relationship index is unchanged |
| GuidIndex.LegacyIndexer.IndexRelationship | src/main/java/com/graphaware/module/guid/index/LegacyIndexer.java:65-67 | the relationship index gains the relationship; the node index is unchanged |
| GuidIndex.LegacyIndexer.Index | src/main/java/com/graphaware/module/guid/index/GuidIndexer.java:33-39 | a node updates only the node index, and a relationship only the relationship index |
| GuidIndex.LegacyIndexer.GetNodeByGuid | src/main/java/com/graphaware/module/guid/index/LegacyIndexer.java:49-51 | `getSingle`: there is an error iff two nodes share the value. Nothing iff no node has it. Otherwise the result is the only node with it |
| GuidIndex.LegacyIndexer.GetRelationshipByGuid | src/main/java/com/graphaware/module/guid/index/LegacyIndexer.java:81-83 | the same, in the relationship index |
| GuidIndex.LegacyIndexer.DeleteNodeFromIndex | src/main/java/com/graphaware/module/guid/index/LegacyIndexer.java:57-59 | the node index drops the node's entries |
| GuidIndex.LegacyIndexer.DeleteRelationshipFromIndex | src/main/java/com/graphaware/module/guid/index/LegacyIndexer.java:73-75 | the relationship index drops the relationship's entries |
| GuidIndex.LegacyIndexer.DeleteFromIndex | src/main/java/com/graphaware/module/guid/GuidModule.java:136-138 | deletion dispatches on the kind and touches only that kind's index |
| GuidSequence.UpdateSequence | src/main/java/com/graphaware/module/guid/generator/SequenceIdGenerator.java:73-75 | +1 in Java `long` arithmetic, wrapping from the largest long to the smallest |
| GuidSequence.Generate | src/main/java/com/graphaware/module/guid/generator/SequenceIdGenerator.java:24-64 | it fails iff there is more than one counter node, and then changes nothing. Otherwise exactly one counter node remains, holding the returned `updateSequence` of the old counter (or of `initialSequenceValue` when there was none) |
| GuidSequence.CallsFromFreshStore | src/main/java/com/graphaware/module/guid/generator/SequenceIdGenerator.java:19 | from an empty store, with initial value 0, the k-th call returns k+1, and one counter holding n remains after n calls |
| GuidSequence.CallsFrom | src/main/java/com/graphaware/module/guid/generator/SequenceIdGenerator.java:50-56 | from a counter at `start`, the k-th call returns start+k+1 |
| GuidSequence.SuccessiveCallsIncrease | src/main/java/com/graphaware/module/guid/generator/SequenceIdGenerator.java:73-75 | below the largest long, two successive successful calls return strictly increasing values |
| GuidSequence.SequenceIdGenerator.GenerateGuid | src/main/java/com/graphaware/module/guid/generator/SequenceIdGenerator.java:24-64 | the counting loop, creation and update leave the result and the counter nodes exactly as `Generate` says |
| UuidSequence.NextSequence | src/main/java/com/graphaware/module/uuid/generator/SequenceIdGenerator.java:22 | `coalesce(sequence, 0) + 1` on the counter with id 0, failing on `long` overflow |
| UuidSequence.Attempts | src/main/java/com/graphaware/module/uuid/generator/SequenceIdGenerator.java:26-44 | a deadlock is retried while `currentRetry < 100`; any other failure is not retried |
| UuidSequence.AttemptsBounded | src/main/java/com/graphaware/module/uuid/generator/SequenceIdGenerator.java:38-40 | the number of attempts made exceeds the starting retry count and is at most 101 |
| UuidSequence.PersistentDeadlockFails | src/main/java/com/graphaware/module/uuid/generator/SequenceIdGenerator.java:38-42 | when every attempt deadlocks, the call fails after exactly 101 attempts and the counter is untouched |
| UuidSequence.OtherFailureNotRetried | src/main/java/com/graphaware/module/uuid/generator/SequenceIdGenerator.java:37-42 | a non-deadlock failure is surfaced after a single attempt |
| UuidSequence.ResultIsNewCounter | src/main/java/com/graphaware/module/uuid/generator/SequenceIdGenerator.java:33-36 | a returned identifier is the decimal rendering of the counter it leaves behind; a failure leaves the counter unchanged |
| UuidSequence.FreshStoreYieldsOne | src/main/java/com/graphaware/module/uuid/generator/SequenceIdGenerator.java:22-36 | the first successful call on an empty store returns "1" |
| UuidSequence.SuccessiveCallsIncrease | src/main/java/com/graphaware/module/uuid/generator/SequenceIdGenerator.java:22 | two successive successful calls leave strictly increasing counters and return different identifiers |
| UuidSequence.SequenceIdGenerator.GenerateUuidFrom | src/main/java/com/graphaware/module/uuid/generator/SequenceIdGenerator.java:26-44 | the recursive retry leaves the result and the counter exactly as `Attempts` says |
| UuidSequence.SequenceIdGenerator.GenerateUuid | src/main/java/com/graphaware/module/uuid/generator/SequenceIdGenerator.java:46-49 | it starts the retry at 0 |
| RandomSource.RandomGenerator.Generate | src/main/java/com/graphaware/module/uuid/UuidModule.java:149 | each call returns the next draw and advances the call count by one |
| Host.DecimalRoundTrip | src/main/java/com/graphaware/module/uuid/generator/SequenceIdGenerator.java:36 | the decimal rendering of a long parses back to it |
| Host.DecimalStringInjective | src/main/java/com/graphaware/module/uuid/generator/SequenceIdGenerator.java:36 | distinct longs render as distinct strings |
| Host.Database.SetProperty | src/main/java/com/graphaware/module/uuid/UuidModule.java:150 | exactly one property of one entity changes |
| DefaultUuidReader.GetNodeIdByUuid | src/main/java/com/graphaware/module/uuid/read/DefaultUuidReader.java:40-48 | an id iff the node index has a hit, and that node is indexed under the value; otherwise NotFound "Node with UUID x does not exist" |
| DefaultUuidReader.GetRelationshipIdByUuid | src/main/java/com/graphaware/module/uuid/read/DefaultUuidReader.java:54-62 | the same for relationships, with "Relationship with UUID x does not exist" |
| DefaultUuidReader.ReadAfterIndexAndDelete | src/main/java/com/graphaware/module/uuid/read/DefaultUuidReader.java:40-62 | after indexing an entity its id is read back; after deleting it the read is NotFound |
| DefaultGuidReader.GetNodeIdByGuid | src/main/java/com/graphaware/module/guid/read/DefaultGuidReader.java:40-48 | an indexed node that is the only holder of the value is returned; a returned id is always the only holder; NotFound "Node with GUID x does not exist" iff no node holds the value; an ambiguity error exactly when `getSingle` fails |
| DefaultGuidReader.GetRelationshipIdByGuid | src/main/java/com/graphaware/module/guid/read/DefaultGuidReader.java:54-62 | the same for relationships, with "Relationship with GUID x does not exist" |
| DefaultGuidReader.ReadAfterIndexAndDelete | src/main/java/com/graphaware/module/guid/read/DefaultGuidReader.java:40-62 | after indexing an entity its id is read back; after deleting it the read is NotFound |
| UuidReader.GetNodeByUuid | src/main/java/com/graphaware/module/uuid/UuidReader.java:44-57 | the indexed node, or NotFound "Node with UUID x does not exist" when the index has no entry |
| UuidReader.GetNodeIdByUuid | src/main/java/com/graphaware/module/uuid/UuidReader.java:66-76 | the id of the node `getNodeByUuid` finds; its NotFound is propagated unchanged |
| UuidReader.ReadIndexedNode | src/main/java/com/graphaware/module/uuid/UuidReader.java:44-76 | after indexing a node, both readers return it |
| UuidConfig.DefaultConfiguration | src/main/java/com/graphaware/module/uuid/UuidConfiguration.java:49-51 | all-business policies, with the default property and index |
| UuidConfig.NewInstance | src/main/java/com/graphaware/module/uuid/UuidConfiguration.java:57-59 | new policies; property and index preserved |
| UuidConfig.WithUuidProperty | src/main/java/com/graphaware/module/uuid/UuidConfiguration.java:75-77 | changes only the property |
| UuidConfig.WithUuidIndex | src/main/java/com/graphaware/module/uuid/UuidConfiguration.java:85-87 | changes only the index |
| UuidConfig.Equals | src/main/java/com/graphaware/module/uuid/UuidConfiguration.java:93-104 | equal iff the policies, property and index are all equal |
| UuidConfig.HashCode | src/main/java/com/graphaware/module/uuid/UuidConfiguration.java:110-115 | a Java `int` |
| UuidConfig.HashCodeAgreesWithEquals | src/main/java/com/graphaware/module/uuid/UuidConfiguration.java:93-115 | equal configurations have equal hash codes |
| UuidConfig.DefaultsEqual | src/main/java/com/graphaware/module/uuid/UuidConfiguration.java:49-51 | two default configurations are equal |
| UuidConfig.UpdatesCommute | src/main/java/com/graphaware/module/uuid/UuidConfiguration.java:75-87 | the two updaters commute |
| GuidConfig.DefaultConfiguration | src/main/java/com/graphaware/module/guid/GuidConfiguration.java:60-65 | all-business nodes, no relationships, Eaio generator, no hyphen stripping, the default property and indexes |
| GuidConfig.NewInstance | src/main/java/com/graphaware/module/guid/GuidConfiguration.java:71-73 | new policies and initialize-until; all five GUID fields preserved |
| GuidConfig.WithGuidGenerator | src/main/java/com/graphaware/module/guid/GuidConfiguration.java:101-103 | changes only the generator name |
| GuidConfig.WithGuidProperty | src/main/java/com/graphaware/module/guid/GuidConfiguration.java:111-113 | changes only the property |
| GuidConfig.WithGuidIndex | src/main/java/com/graphaware/module/guid/GuidConfiguration.java:121-123 | changes only the node index name |
| GuidConfig.WithGuidRelationshipIndex | src/main/java/com/graphaware/module/guid/GuidConfiguration.java:131-133 | changes only the relationship index name |
| GuidConfig.WithStripHyphensProperty | src/main/java/com/graphaware/module/guid/GuidConfiguration.java:141-143 | changes only the strip flag |
| GuidConfig.UpdatesCommute | src/main/java/com/graphaware/module/guid/GuidConfiguration.java:101-143 | updaters of different fields commute; the last strip update wins |
| GuidBootstrapper.ParseBooleanExamples | src/main/java/com/graphaware/module/guid/GuidBootstrapper.java:77 | `Boolean.valueOf` accepts "true" in any case and nothing else |
| GuidBootstrapper.DoBootstrapModule | src/main/java/com/graphaware/module/guid/GuidBootstrapper.java:55-90 | each of the five keys overrides its field iff its value is not blank; stripHyphens becomes `Boolean.valueOf` of the text; policies and initialize-until are kept |
| UuidBootstrapper.DoBootstrapModule | src/main/java/com/graphaware/module/uuid/UuidBootstrapper.java:50-62 | each of the two keys overrides its field iff present and non-empty; nothing else changes |
| UuidBootstrapper.WhitespaceOnlyStillApplies | src/main/java/com/graphaware/module/uuid/UuidBootstrapper.java:51-54 | every key the GUID bootstrapper applies is applied here too, and a whitespace-only value is applied here but not there |

## Left out

- HTTP controllers (`GuidApi`, both `UuidApi` classes) and the query-language procedures: web and procedure plumbing around the readers.
- `TransactionalGuidReader`: it only opens a transaction around the reader; transaction boundaries are implicit.
- Randomness: the Eaio and `java.util.UUID` generators are a sequence of draws (`RandomSource.RandomGenerator`). No claim about the uniqueness of random values is made.
- Concurrency: the write lock in the GUID sequence generator, real deadlock detection, and cluster replication. Calls are sequential. A deadlock is an oracle outcome per attempt (`UuidSequence.Attempts`) that only drives the retry count.
- Batching of `initialize` (1000 entities per transaction): the backfill is one loop, and a rollback stops it at the first failing entity.
- `GuidConfiguration.equals`/`hashCode`: no equality law is stated. Its `equals` returns false for equal relationship index names, and its `hashCode` covers the generator name that `equals` ignores.
- Logging, and the messages of the rollback exceptions: a failure is a datatype naming its cause.
- The constants `Properties.UUID`, `Properties.GUID`, `Indexes.*` and `ALWAYS` are not part of this model. Their names are kept as constants whose values are placeholders.
- The inclusion policies are a predicate on entities (`admits`); the business-label rules behind `allBusiness` are not modelled. The transaction diff is taken as already filtered by the policy.
- `instantiateGuidGenerator` loads any class by name. The model knows only the three shipped generators, and any other name fails construction.
- The GUID sequence generator's counter nodes are kept apart from the entities the hook sees.
- Property values are narrowed to strings and Java `long`s (`Host.Value`). The source accepts any Neo4j property type as a preset identifier, reads it with `toString()` and compares it with `equals`. The model therefore does not capture two things: an `Integer` 5 replaced by a `Long` 5 counts as modified in the source but as unchanged here, and array-valued identifiers compare by reference in the source.
- The order of index hits is taken as insertion order (`LegacyIndex.FirstHitIn`). The source takes the first element of a Lucene hit iterator, whose order is not promised. Which of several holders `getNodeByUuid` returns is therefore a choice of the model.
- The lookup's `getNodeById` of a stale index entry (a `NotFoundException` from Neo4j) is not modelled: a hit is returned as an id.
- UuidModule calls `uuidIndexer.index` and a relationship index name that belong to a later indexer revision. The model gives the UUID indexer the same per-kind `index` dispatch as `GuidIndexer`.
- GuidBootstrapper.ParseBooleanExamples: case folding is ASCII only, which covers every spelling of "true".
- Host.StringHash: `String.hashCode` over UTF-16 code units is approximated on characters.
- HookProperties.AssignKeepsUnique: uniqueness of the index is proved per assign step and assumes that generated values are fresh, since the random generators promise nothing.
