/** `UuidModule`: the commit hook that gives every created node and
    relationship a UUID, keeps the UUID index in step with deletions and
    forbids removing or changing a UUID, and the backfill that retrofits
    UUIDs onto existing entities. */
module UuidModule {
  import opened Wrappers
  import opened Host
  import opened LegacyIndex
  import opened Commit
  import opened Hook
  import opened UuidConfig
  import opened RandomSource
  import UuidIndex
  import UuidAssign

  class UuidModule {
    const configuration: UuidConfiguration
    const uuidGenerator: RandomGenerator
    const uuidIndexer: UuidIndex.LegacyIndexer

    ghost predicate Valid()
    {
      uuidIndexer.Valid() && uuidIndexer.property == configuration.uuidProperty
    }

    constructor (configuration: UuidConfiguration, uuidGenerator: RandomGenerator,
                 nodes: KindIndex, relationships: KindIndex)
      requires nodes != relationships
      ensures Valid() && this.configuration == configuration && this.uuidGenerator == uuidGenerator
      ensures uuidIndexer.nodes == nodes && uuidIndexer.relationships == relationships
    {
      this.configuration := configuration;
      this.uuidGenerator := uuidGenerator;
      this.uuidIndexer := new UuidIndex.LegacyIndexer(configuration.uuidProperty, nodes, relationships);
    }

    /** The hook specification this module runs. */
    function Assigner(): Hook.Assigner
    {
      UuidAssigner(configuration.uuidProperty, uuidGenerator.draws)
    }

    /** The store, both indexes and the generator, as the specification sees them. */
    function Snapshot(db: Database): State
      reads db, uuidGenerator, uuidIndexer.nodes, uuidIndexer.relationships
    {
      State(db.entities, uuidIndexer.nodes.State(), uuidIndexer.relationships.State(), uuidGenerator.calls, [])
    }

    /** `assignUuid`. */
    method AssignUuid(db: Database, ref: EntityRef) returns (outcome: Outcome)
      requires Valid() && ref in db.entities
      modifies db, uuidGenerator, uuidIndexer.nodes, uuidIndexer.relationships
      ensures Run(outcome, Snapshot(db))
              == UuidAssign.AssignUuid(configuration.uuidProperty, uuidGenerator.draws, old(Snapshot(db)), ref)
    {
      var uuidProperty := configuration.uuidProperty;
      if uuidProperty !in db.entities[ref] {
        var uuid := uuidGenerator.Generate();
        db.SetProperty(ref, uuidProperty, Str(uuid));
      } else {
        var uuidPropertyValue := ToString(db.entities[ref][uuidProperty]);
        var existing: Option<EntityId>;
        if ref.kind == Node {
          existing := uuidIndexer.GetNodeByUuid(uuidPropertyValue);
        } else {
          existing := uuidIndexer.GetRelationshipByUuid(uuidPropertyValue);
        }
        if existing.Some? && existing.value != ref.id {
          return Rollback(AlreadyExists(ref.kind, uuidPropertyValue, existing.value));
        }
      }
      uuidIndexer.Index(ref, db.entities[ref]);
      outcome := Proceed;
    }

    /** The loop over the created entities of one kind. */
    method AssignCreated(db: Database, kind: Kind, created: seq<EntityId>) returns (outcome: Outcome)
      requires Valid() && AllIn(db.entities, kind, created)
      modifies db, uuidGenerator, uuidIndexer.nodes, uuidIndexer.relationships
      ensures Run(outcome, Snapshot(db)) == AssignAll(Assigner(), old(Snapshot(db)), kind, created)
    {
      var i := 0;
      while i < |created|
        invariant 0 <= i <= |created|
        invariant db.entities.Keys == old(db.entities.Keys)
        invariant AssignAll(Assigner(), old(Snapshot(db)), kind, created)
                  == AssignAll(Assigner(), Snapshot(db), kind, created[i..])
      {
        assert created[i..][0] == created[i] && created[i..][1..] == created[i + 1..];
        assert created[i] in created;
        outcome := AssignUuid(db, EntityRef(kind, created[i]));
        if outcome.Rollback? {
          return;
        }
        i := i + 1;
      }
      outcome := Proceed;
    }

    /** The loop over the deleted entities of one kind. */
    method DeleteFromIndex(db: Database, kind: Kind, deleted: seq<EntityId>)
      requires Valid()
      modifies uuidIndexer.nodes, uuidIndexer.relationships
      ensures Snapshot(db) == WithIndex(old(Snapshot(db)), kind, DeleteAll(IndexOf(old(Snapshot(db)), kind), deleted))
    {
      var i := 0;
      while i < |deleted|
        invariant 0 <= i <= |deleted|
        invariant Snapshot(db)
                  == WithIndex(old(Snapshot(db)), kind, DeleteAll(IndexOf(old(Snapshot(db)), kind), deleted[..i]))
      {
        assert deleted[..i + 1][..i] == deleted[..i];
        uuidIndexer.DeleteFromIndex(EntityRef(kind, deleted[i]));
        i := i + 1;
      }
      assert deleted[..i] == deleted;
    }

    /** The loop over the changed entities of one kind: the UUID may be
        neither removed nor modified. */
    method CheckChanged(changed: seq<Change>) returns (failure: Option<Failure>)
      ensures failure == CheckChanges(configuration.uuidProperty, changed)
    {
      var uuidProperty := configuration.uuidProperty;
      var i := 0;
      while i < |changed|
        invariant 0 <= i <= |changed|
        invariant CheckChanges(uuidProperty, changed) == CheckChanges(uuidProperty, changed[i..])
      {
        var change := changed[i];
        assert changed[i..][0] == change && changed[i..][1..] == changed[i + 1..];
        if uuidProperty !in change.current {
          return Some(NotAllowedToRemove(uuidProperty));
        }
        if uuidProperty !in change.previous {
          return Some(PropertyNotFound(uuidProperty));
        }
        if change.previous[uuidProperty] != change.current[uuidProperty] {
          return Some(NotAllowedToModify(uuidProperty));
        }
        i := i + 1;
      }
      return None;
    }

    /** Created, then deleted, then changed entities of one kind. */
    method ProcessKind(db: Database, kind: Kind, changes: EntityChanges) returns (outcome: Outcome)
      requires Valid() && AllIn(db.entities, kind, changes.created)
      modifies db, uuidGenerator, uuidIndexer.nodes, uuidIndexer.relationships
      ensures Run(outcome, Snapshot(db)) == KindPhase(Assigner(), old(Snapshot(db)), kind, changes)
    {
      outcome := AssignCreated(db, kind, changes.created);
      if outcome.Rollback? {
        return;
      }
      DeleteFromIndex(db, kind, changes.deleted);
      var failure := CheckChanged(changes.changed);
      if failure.Some? {
        outcome := Rollback(failure.value);
      }
    }

    /** `beforeCommit`: all nodes, then all relationships; a rollback stops. */
    method BeforeCommit(db: Database, tx: TransactionData) returns (outcome: Outcome)
      requires Valid() && CreatedExist(db.entities, tx)
      modifies db, uuidGenerator, uuidIndexer.nodes, uuidIndexer.relationships
      ensures Run(outcome, Snapshot(db)) == Hook.BeforeCommit(Assigner(), old(Snapshot(db)), tx)
    {
      outcome := ProcessKind(db, Node, tx.nodes);
      if outcome.Rollback? {
        return;
      }
      outcome := ProcessKind(db, Relationship, tx.relationships);
    }

    /** The backfill loop over all entities of one kind: only those the
        inclusion policy admits are assigned. */
    method AssignAdmitted(db: Database, kind: Kind, all: seq<EntityId>, admits: EntityRef -> bool)
      returns (outcome: Outcome)
      requires Valid() && AllIn(db.entities, kind, all)
      modifies db, uuidGenerator, uuidIndexer.nodes, uuidIndexer.relationships
      ensures Run(outcome, Snapshot(db)) == AssignAll(Assigner(), old(Snapshot(db)), kind, Included(kind, all, admits))
    {
      var i := 0;
      while i < |all|
        invariant 0 <= i <= |all|
        invariant db.entities.Keys == old(db.entities.Keys)
        invariant AssignAll(Assigner(), old(Snapshot(db)), kind, Included(kind, all, admits))
                  == AssignAll(Assigner(), Snapshot(db), kind, Included(kind, all[i..], admits))
      {
        var ref := EntityRef(kind, all[i]);
        AssignAdmittedStep(Assigner(), Snapshot(db), kind, all, i, admits);
        if admits(ref) {
          outcome := AssignUuid(db, ref);
          if outcome.Rollback? {
            return;
          }
        }
        i := i + 1;
      }
      outcome := Proceed;
    }

    /** `initialize`: backfill all nodes, then all relationships. */
    method Initialize(db: Database, nodes: seq<EntityId>, relationships: seq<EntityId>, admits: EntityRef -> bool)
      returns (outcome: Outcome)
      requires Valid() && AllIn(db.entities, Node, nodes) && AllIn(db.entities, Relationship, relationships)
      modifies db, uuidGenerator, uuidIndexer.nodes, uuidIndexer.relationships
      ensures Run(outcome, Snapshot(db)) == Hook.Initialize(Assigner(), old(Snapshot(db)), nodes, relationships, admits)
    {
      outcome := AssignAdmitted(db, Node, nodes, admits);
      if outcome.Rollback? {
        return;
      }
      outcome := AssignAdmitted(db, Relationship, relationships, admits);
    }
  }
}
