/** `GuidModule`: the commit hook that gives every created node and
    relationship a GUID from the configured generator, keeps the GUID index
    in step with deletions and forbids removing or changing a GUID, and the
    backfill that retrofits GUIDs onto existing entities. */
module GuidModule {
  import opened Wrappers
  import opened Host
  import opened LegacyIndex
  import opened Commit
  import opened Hook
  import opened GuidConfig
  import opened RandomSource
  import opened GuidAssign
  import GuidSequence
  import GuidIndex

  const GeneratorPackage := "com.graphaware.module.guid.generator."

  /** The fully qualified class name of each shipped generator. */
  function ClassName(generator: GuidGenerator): string
  {
    match generator
    case EaioUuid => GeneratorPackage + "EaioUUIDGenerator"
    case JavaUtilUuid => GeneratorPackage + "JavaUtilUUIDGenerator"
    case SequenceId => GeneratorPackage + "SequenceIdGenerator"
  }

  /** `instantiateGuidGenerator`: the configured class name is looked up;
      a name that is not a generator class fails the module's construction. */
  function InstantiateGuidGenerator(name: string): (r: Result<GuidGenerator, string>)
    ensures r.Ok? <==> exists g :: ClassName(g) == name
    ensures r.Ok? ==> ClassName(r.value) == name
    ensures r.Err? ==> r.error == "Unable to instantiate GuidGenerator of type '" + name + "'"
  {
    if name == ClassName(EaioUuid) then Ok(EaioUuid)
    else if name == ClassName(JavaUtilUuid) then Ok(JavaUtilUuid)
    else if name == ClassName(SequenceId) then Ok(SequenceId)
    else Err("Unable to instantiate GuidGenerator of type '" + name + "'")
  }

  /** Every shipped generator is found under its own class name. */
  lemma InstantiateClassName(g: GuidGenerator)
    ensures InstantiateGuidGenerator(ClassName(g)) == Ok(g)
  {
    assert ClassName(EaioUuid)[|GeneratorPackage|] == 'E';
    assert ClassName(JavaUtilUuid)[|GeneratorPackage|] == 'J';
    assert ClassName(SequenceId)[|GeneratorPackage|] == 'S';
  }

  /** The default configuration names the Eaio UUID generator. */
  lemma DefaultGeneratorIsEaio()
    ensures InstantiateGuidGenerator(DefaultConfiguration().guidGenerator) == Ok(EaioUuid)
  {
    InstantiateClassName(EaioUuid);
  }

  class GuidModule {
    const guidConfiguration: GuidConfiguration
    /** Which generator `instantiateGuidGenerator` chose. */
    const generator: GuidGenerator
    /** The state of a random generator, used when `generator` is one. */
    const random: RandomGenerator
    /** The state of the sequence generator, used when `generator` is one. */
    const sequence: GuidSequence.SequenceIdGenerator
    const guidIndexer: GuidIndex.LegacyIndexer

    ghost predicate Valid()
    {
      guidIndexer.Valid() && guidIndexer.property == guidConfiguration.guidProperty
    }

    /** The constructor, once `instantiateGuidGenerator` has succeeded. */
    constructor (configuration: GuidConfiguration, generator: GuidGenerator,
                 random: RandomGenerator, sequence: GuidSequence.SequenceIdGenerator,
                 nodes: KindIndex, relationships: KindIndex)
      requires InstantiateGuidGenerator(configuration.guidGenerator) == Ok(generator)
      requires nodes != relationships
      ensures Valid() && guidConfiguration == configuration && this.generator == generator
      ensures this.random == random && this.sequence == sequence
      ensures guidIndexer.nodes == nodes && guidIndexer.relationships == relationships
    {
      guidConfiguration := configuration;
      this.generator := generator;
      this.random := random;
      this.sequence := sequence;
      guidIndexer := new GuidIndex.LegacyIndexer(configuration.guidProperty, nodes, relationships);
    }

    /** The hook specification this module runs. */
    function Assigner(): Hook.Assigner
    {
      GuidAssigner(guidConfiguration.guidProperty, guidConfiguration.stripHyphens, generator,
                   random.draws, sequence.initialSequenceValue)
    }

    /** The store, both indexes and the generators, as the specification sees them. */
    function Snapshot(db: Database): State
      reads db, random, sequence, guidIndexer.nodes, guidIndexer.relationships
    {
      State(db.entities, guidIndexer.nodes.State(), guidIndexer.relationships.State(), random.calls, sequence.counters)
    }

    /** `assignGuid`. */
    method AssignGuid(db: Database, ref: EntityRef) returns (outcome: Outcome)
      requires Valid() && ref in db.entities
      modifies db, random, sequence, guidIndexer.nodes, guidIndexer.relationships
      ensures Run(outcome, Snapshot(db))
              == GuidAssign.AssignGuid(guidConfiguration.guidProperty, guidConfiguration.stripHyphens, generator,
                                       random.draws, sequence.initialSequenceValue, old(Snapshot(db)), ref)
    {
      if guidConfiguration.guidProperty !in db.entities[ref] {
        outcome := AssignNewGuid(db, ref);
      } else {
        outcome := HandleExistingGuid(db, ref);
      }
      if outcome.Rollback? {
        return;
      }
      guidIndexer.Index(ref, db.entities[ref]);
    }

    /** `assignNewGuid`: generate, strip hyphens from a string when
        configured, and store. */
    method AssignNewGuid(db: Database, ref: EntityRef) returns (outcome: Outcome)
      requires ref in db.entities && guidConfiguration.guidProperty !in db.entities[ref]
      modifies db, random, sequence
      ensures match Generate(generator, random.draws, sequence.initialSequenceValue, old(Snapshot(db)))
              case Err(f) => outcome == Rollback(f) && Snapshot(db) == old(Snapshot(db))
              case Ok(g) =>
                outcome == Proceed
                && Snapshot(db) == g.1.(graph := old(db.entities)[ref := old(db.entities)[ref][
                                          guidConfiguration.guidProperty := Stored(g.0, guidConfiguration.stripHyphens)]])
    {
      var guid: Value;
      if generator == SequenceId {
        var r := sequence.GenerateGuid();
        if r.Err? {
          return Rollback(SequenceFailed);
        }
        guid := Num(r.value);
      } else {
        var s := random.Generate();
        guid := Str(s);
      }
      if guid.Str? && guidConfiguration.stripHyphens {
        guid := Str(StripHyphens(guid.s));
      }
      db.SetProperty(ref, guidConfiguration.guidProperty, guid);
      outcome := Proceed;
    }

    /** `handleExistingGuid`: look the GUID up in the index of the entity's
        kind; several hits, or a hit on another entity, roll back. */
    method HandleExistingGuid(db: Database, ref: EntityRef) returns (outcome: Outcome)
      requires Valid() && ref in db.entities && guidConfiguration.guidProperty in db.entities[ref]
      ensures var value := ToString(db.entities[ref][guidConfiguration.guidProperty]);
              match SingleHit(IndexOf(Snapshot(db), ref.kind), value)
              case Err(_) => outcome == Rollback(AmbiguousLookup(value))
              case Ok(existing) =>
                (outcome.Rollback? <==> existing.Some? && existing.value != ref.id)
                && (outcome.Rollback? ==> outcome == Rollback(AlreadyExists(ref.kind, value, existing.value)))
    {
      var guid := ToString(db.entities[ref][guidConfiguration.guidProperty]);
      var existing: Result<Option<EntityId>, LookupError>;
      if ref.kind == Node {
        existing := guidIndexer.GetNodeByGuid(guid);
      } else {
        existing := guidIndexer.GetRelationshipByGuid(guid);
      }
      if existing.Err? {
        return Rollback(AmbiguousLookup(guid));
      }
      if existing.value.Some? && existing.value.value != ref.id {
        return Rollback(AlreadyExists(ref.kind, guid, existing.value.value));
      }
      outcome := Proceed;
    }

    /** The loop over the created entities of one kind. */
    method AssignCreated(db: Database, kind: Kind, created: seq<EntityId>) returns (outcome: Outcome)
      requires Valid() && AllIn(db.entities, kind, created)
      modifies db, random, sequence, guidIndexer.nodes, guidIndexer.relationships
      ensures Run(outcome, Snapshot(db)) == AssignAll(Assigner(), old(Snapshot(db)), kind, created)
    {
      var i := 0;
      while i < |created|
        invariant 0 <= i <= |created|
        invariant db.entities.Keys == old(db.entities.Keys)
        invariant AssignAll(Assigner(), old(Snapshot(db)), kind, created)
                  == AssignAll(Assigner(), Snapshot(db), kind, created[i..])
      {
        assert created[i..][0] == created[i] && created[i..][1..] == created[i + 1..];
        assert created[i] in created;
        outcome := AssignGuid(db, EntityRef(kind, created[i]));
        if outcome.Rollback? {
          return;
        }
        i := i + 1;
      }
      outcome := Proceed;
    }

    /** The loop over the deleted entities of one kind. */
    method DeleteFromIndex(db: Database, kind: Kind, deleted: seq<EntityId>)
      requires Valid()
      modifies guidIndexer.nodes, guidIndexer.relationships
      ensures Snapshot(db) == WithIndex(old(Snapshot(db)), kind, DeleteAll(IndexOf(old(Snapshot(db)), kind), deleted))
    {
      var i := 0;
      while i < |deleted|
        invariant 0 <= i <= |deleted|
        invariant Snapshot(db)
                  == WithIndex(old(Snapshot(db)), kind, DeleteAll(IndexOf(old(Snapshot(db)), kind), deleted[..i]))
      {
        assert deleted[..i + 1][..i] == deleted[..i];
        guidIndexer.DeleteFromIndex(EntityRef(kind, deleted[i]));
        i := i + 1;
      }
      assert deleted[..i] == deleted;
    }

    /** The loop over the changed entities of one kind: the GUID may be
        neither removed nor modified. */
    method CheckChanged(changed: seq<Change>) returns (failure: Option<Failure>)
      ensures failure == CheckChanges(guidConfiguration.guidProperty, changed)
    {
      var guidProperty := guidConfiguration.guidProperty;
      var i := 0;
      while i < |changed|
        invariant 0 <= i <= |changed|
        invariant CheckChanges(guidProperty, changed) == CheckChanges(guidProperty, changed[i..])
      {
        var change := changed[i];
        assert changed[i..][0] == change && changed[i..][1..] == changed[i + 1..];
        if guidProperty !in change.current {
          return Some(NotAllowedToRemove(guidProperty));
        }
        if guidProperty !in change.previous {
          return Some(PropertyNotFound(guidProperty));
        }
        if change.previous[guidProperty] != change.current[guidProperty] {
          return Some(NotAllowedToModify(guidProperty));
        }
        i := i + 1;
      }
      return None;
    }

    /** Created, then deleted, then changed entities of one kind. */
    method ProcessKind(db: Database, kind: Kind, changes: EntityChanges) returns (outcome: Outcome)
      requires Valid() && AllIn(db.entities, kind, changes.created)
      modifies db, random, sequence, guidIndexer.nodes, guidIndexer.relationships
      ensures Run(outcome, Snapshot(db)) == KindPhase(Assigner(), old(Snapshot(db)), kind, changes)
    {
      outcome := AssignCreated(db, kind, changes.created);
      if outcome.Rollback? {
        return;
      }
      DeleteFromIndex(db, kind, changes.deleted);
      var failure := CheckChanged(changes.changed);
      if failure.Some? {
        outcome := Rollback(failure.value);
      }
    }

    /** `beforeCommit`: all nodes, then all relationships; a rollback stops. */
    method BeforeCommit(db: Database, tx: TransactionData) returns (outcome: Outcome)
      requires Valid() && CreatedExist(db.entities, tx)
      modifies db, random, sequence, guidIndexer.nodes, guidIndexer.relationships
      ensures Run(outcome, Snapshot(db)) == Hook.BeforeCommit(Assigner(), old(Snapshot(db)), tx)
    {
      outcome := ProcessKind(db, Node, tx.nodes);
      if outcome.Rollback? {
        return;
      }
      outcome := ProcessKind(db, Relationship, tx.relationships);
    }

    /** The backfill loop over all entities of one kind: only those the
        inclusion policy admits are assigned. */
    method AssignAdmitted(db: Database, kind: Kind, all: seq<EntityId>, admits: EntityRef -> bool)
      returns (outcome: Outcome)
      requires Valid() && AllIn(db.entities, kind, all)
      modifies db, random, sequence, guidIndexer.nodes, guidIndexer.relationships
      ensures Run(outcome, Snapshot(db)) == AssignAll(Assigner(), old(Snapshot(db)), kind, Included(kind, all, admits))
    {
      var i := 0;
      while i < |all|
        invariant 0 <= i <= |all|
        invariant db.entities.Keys == old(db.entities.Keys)
        invariant AssignAll(Assigner(), old(Snapshot(db)), kind, Included(kind, all, admits))
                  == AssignAll(Assigner(), Snapshot(db), kind, Included(kind, all[i..], admits))
      {
        var ref := EntityRef(kind, all[i]);
        AssignAdmittedStep(Assigner(), Snapshot(db), kind, all, i, admits);
        if admits(ref) {
          outcome := AssignGuid(db, ref);
          if outcome.Rollback? {
            return;
          }
        }
        i := i + 1;
      }
      outcome := Proceed;
    }

    /** `initialize`: backfill all nodes, then all relationships. */
    method Initialize(db: Database, nodes: seq<EntityId>, relationships: seq<EntityId>, admits: EntityRef -> bool)
      returns (outcome: Outcome)
      requires Valid() && AllIn(db.entities, Node, nodes) && AllIn(db.entities, Relationship, relationships)
      modifies db, random, sequence, guidIndexer.nodes, guidIndexer.relationships
      ensures Run(outcome, Snapshot(db)) == Hook.Initialize(Assigner(), old(Snapshot(db)), nodes, relationships, admits)
    {
      outcome := AssignAdmitted(db, Node, nodes, admits);
      if outcome.Rollback? {
        return;
      }
      outcome := AssignAdmitted(db, Relationship, relationships, admits);
    }
  }
}
