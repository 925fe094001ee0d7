/** The commit hook and the backfill both modules run, as functions of the
    state: `beforeCommit` handles created, then deleted, then changed nodes,
    then the same for relationships, and the first failure rolls the
    transaction back; `initialize` assigns identifiers to every included
    node, then every included relationship. */
module Hook {
  import opened Wrappers
  import opened Host
  import opened LegacyIndex
  import opened Commit
  import UuidAssign
  import GuidAssign

  /** Which module's `assignUuid`/`assignGuid` the hook runs, with its
      configuration and generator. */
  datatype Assigner =
    | UuidAssigner(property: string, draws: nat -> string)
    | GuidAssigner(property: string, stripHyphens: bool, generator: GuidAssign.GuidGenerator,
                   draws: nat -> string, initial: Long)

  /** One entity's assignment, with what both modules guarantee about it:
      only that entity is written, no property it had is changed, only its
      own kind's index gains entries, only entries for it, a rollback
      leaves everything as it was, success leaves it identified and
      indexed, and an entity that already has an identifier is only
      validated (no write, no generator call). */
  function Assign(a: Assigner, st: State, ref: EntityRef): (r: Run)
    requires ref in st.graph
    ensures r.state.graph.Keys == st.graph.Keys
    ensures forall other | other in st.graph && other != ref :: r.state.graph[other] == st.graph[other]
    ensures forall k | k in st.graph[ref] :: k in r.state.graph[ref] && r.state.graph[ref][k] == st.graph[ref][k]
    ensures IndexOf(r.state, Other(ref.kind)) == IndexOf(st, Other(ref.kind))
    ensures IndexOf(st, ref.kind).present ==> IndexOf(r.state, ref.kind).present
    ensures forall e | e in IndexOf(st, ref.kind).entries :: e in IndexOf(r.state, ref.kind).entries
    ensures forall e | e in IndexOf(r.state, ref.kind).entries :: e in IndexOf(st, ref.kind).entries || e.id == ref.id
    ensures r.outcome.Rollback? ==> r.state == st
    ensures r.outcome.Proceed? ==>
              IndexOf(r.state, ref.kind).present && a.property in r.state.graph[ref]
              && Entry(ToString(r.state.graph[ref][a.property]), ref.id) in IndexOf(r.state, ref.kind).entries
    ensures a.property in st.graph[ref] ==>
              r.state.graph == st.graph && r.state.calls == st.calls && r.state.counters == st.counters
    ensures a.property in st.graph[ref] && IndexOf(st, ref.kind).present
            && (exists e | e in IndexOf(st, ref.kind).entries :: e.value == ToString(st.graph[ref][a.property]))
            && (forall e | e in IndexOf(st, ref.kind).entries :: e.id != ref.id)
            ==> r.outcome.Rollback?
  {
    match a
    case UuidAssigner(property, draws) => UuidAssign.AssignUuid(property, draws, st, ref)
    case GuidAssigner(property, strip, generator, draws, initial) =>
      GuidAssign.AssignGuid(property, strip, generator, draws, initial, st, ref)
  }

  /** Every listed entity of the kind exists in the graph. */
  predicate AllIn(graph: map<EntityRef, Props>, kind: Kind, ids: seq<EntityId>)
  {
    forall id | id in ids :: EntityRef(kind, id) in graph
  }

  /** Assigning identifiers to the listed entities in order; the first
      failure stops. */
  function AssignAll(a: Assigner, st: State, kind: Kind, ids: seq<EntityId>): (r: Run)
    requires AllIn(st.graph, kind, ids)
    ensures r.state.graph.Keys == st.graph.Keys
    ensures forall other | other in st.graph && (other.kind != kind || other.id !in ids) ::
              r.state.graph[other] == st.graph[other]
    ensures forall other, k | other in st.graph && k in st.graph[other] ::
              k in r.state.graph[other] && r.state.graph[other][k] == st.graph[other][k]
    ensures IndexOf(r.state, Other(kind)) == IndexOf(st, Other(kind))
    ensures IndexOf(st, kind).present ==> IndexOf(r.state, kind).present
    ensures forall e | e in IndexOf(st, kind).entries :: e in IndexOf(r.state, kind).entries
    ensures forall e | e in IndexOf(r.state, kind).entries :: e in IndexOf(st, kind).entries || e.id in ids
    decreases |ids|
  {
    if ids == [] then Run(Proceed, st)
    else
      var first := Assign(a, st, EntityRef(kind, ids[0]));
      if first.outcome.Rollback? then first
      else
        assert forall id | id in ids[1..] :: id in ids;
        AssignAll(a, first.state, kind, ids[1..])
  }

  /** The listed entities the inclusion policy admits, in order. */
  function Included(kind: Kind, ids: seq<EntityId>, admits: EntityRef -> bool): (r: seq<EntityId>)
    ensures forall id :: id in r <==> id in ids && admits(EntityRef(kind, id))
    decreases |ids|
  {
    if ids == [] then []
    else
      assert forall id :: id in ids <==> id == ids[0] || id in ids[1..];
      (if admits(EntityRef(kind, ids[0])) then [ids[0]] else []) + Included(kind, ids[1..], admits)
  }

  /** One step of `AssignAll`, for loops that walk the list. */
  lemma AssignAllStep(a: Assigner, st: State, kind: Kind, ids: seq<EntityId>)
    requires ids != [] && AllIn(st.graph, kind, ids)
    ensures var first := Assign(a, st, EntityRef(kind, ids[0]));
            AssignAll(a, st, kind, ids)
            == if first.outcome.Rollback? then first else AssignAll(a, first.state, kind, ids[1..])
  {
  }

  /** One step of `Included`, for loops that walk the list. */
  lemma IncludedStep(kind: Kind, ids: seq<EntityId>, admits: EntityRef -> bool)
    requires ids != []
    ensures Included(kind, ids, admits)
            == (if admits(EntityRef(kind, ids[0])) then [ids[0]] else []) + Included(kind, ids[1..], admits)
  {
  }

  /** One step of the backfill loop over `ids[i..]`: an admitted entity is
      assigned first, one the policy refuses is skipped. */
  lemma AssignAdmittedStep(a: Assigner, st: State, kind: Kind, ids: seq<EntityId>, i: nat,
                           admits: EntityRef -> bool)
    requires i < |ids| && AllIn(st.graph, kind, ids)
    ensures var ref := EntityRef(kind, ids[i]);
            var rest := AssignAll(a, st, kind, Included(kind, ids[i + 1..], admits));
            AssignAll(a, st, kind, Included(kind, ids[i..], admits))
            == if !admits(ref) then rest
               else
                 var first := Assign(a, st, ref);
                 if first.outcome.Rollback? then first
                 else AssignAll(a, first.state, kind, Included(kind, ids[i + 1..], admits))
  {
    var rest := Included(kind, ids[i + 1..], admits);
    assert ids[i..][0] == ids[i] && ids[i..][1..] == ids[i + 1..];
    IncludedStep(kind, ids[i..], admits);
    if admits(EntityRef(kind, ids[i])) {
      assert ids[i] in ids;
      AssignAllStep(a, st, kind, [ids[i]] + rest);
      assert ([ids[i]] + rest)[1..] == rest;
    } else {
      assert [] + rest == rest;
    }
  }

  /** `initialize`: every included node, then every included relationship,
      gets an identifier or has its identifier validated. */
  function Initialize(a: Assigner, st: State, nodes: seq<EntityId>, relationships: seq<EntityId>,
                      admits: EntityRef -> bool): (r: Run)
    requires AllIn(st.graph, Node, nodes) && AllIn(st.graph, Relationship, relationships)
  {
    var n := AssignAll(a, st, Node, Included(Node, nodes, admits));
    if n.outcome.Rollback? then n
    else AssignAll(a, n.state, Relationship, Included(Relationship, relationships, admits))
  }

  /** The hook's work on one kind: assign to the created entities, drop the
      deleted ones from the index, then check the changed ones. */
  function KindPhase(a: Assigner, st: State, kind: Kind, changes: EntityChanges): (r: Run)
    requires AllIn(st.graph, kind, changes.created)
  {
    var afterCreated := AssignAll(a, st, kind, changes.created);
    if afterCreated.outcome.Rollback? then afterCreated
    else
      var pruned := WithIndex(afterCreated.state, kind, DeleteAll(IndexOf(afterCreated.state, kind), changes.deleted));
      match CheckChanges(a.property, changes.changed)
      case Some(f) => Run(Rollback(f), pruned)
      case None => Run(Proceed, pruned)
  }

  /** Every created entity of the transaction exists in the graph. */
  predicate CreatedExist(graph: map<EntityRef, Props>, tx: TransactionData)
  {
    AllIn(graph, Node, tx.nodes.created) && AllIn(graph, Relationship, tx.relationships.created)
  }

  /** `beforeCommit`: nodes first, then relationships. */
  function BeforeCommit(a: Assigner, st: State, tx: TransactionData): (r: Run)
    requires CreatedExist(st.graph, tx)
  {
    var n := KindPhase(a, st, Node, tx.nodes);
    if n.outcome.Rollback? then n
    else KindPhase(a, n.state, Relationship, tx.relationships)
  }
}
