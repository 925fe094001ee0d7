/** What the commit hook and the backfill guarantee, over all transactions
    and starting states. */
module HookProperties {
  import opened Wrappers
  import opened Host
  import opened LegacyIndex
  import opened Commit
  import opened Hook

  /** The entity has the identifier property and is indexed under its
      string form. */
  predicate Identified(a: Assigner, st: State, ref: EntityRef)
  {
    ref in st.graph && a.property in st.graph[ref]
    && Entry(ToString(st.graph[ref][a.property]), ref.id) in IndexOf(st, ref.kind).entries
  }

  /** After a successful run over a list, every listed entity is identified. */
  lemma {:induction false} AssignAllIdentifies(a: Assigner, st: State, kind: Kind, ids: seq<EntityId>)
    requires AllIn(st.graph, kind, ids)
    ensures AssignAll(a, st, kind, ids).outcome.Proceed? ==>
              forall id | id in ids :: Identified(a, AssignAll(a, st, kind, ids).state, EntityRef(kind, id))
    decreases |ids|
  {
    if ids != [] {
      var first := Assign(a, st, EntityRef(kind, ids[0]));
      if first.outcome.Proceed? {
        assert forall id | id in ids[1..] :: id in ids;
        AssignAllIdentifies(a, first.state, kind, ids[1..]);
        assert forall id | id in ids :: id == ids[0] || id in ids[1..];
      }
    }
  }

  /** A run over entities that all have the property writes nothing and
      draws nothing from the generator: identifiers are only validated. */
  lemma {:induction false} AssignAllIdle(a: Assigner, st: State, kind: Kind, ids: seq<EntityId>)
    requires AllIn(st.graph, kind, ids)
    requires forall id | id in ids :: a.property in st.graph[EntityRef(kind, id)]
    ensures AssignAll(a, st, kind, ids).state.graph == st.graph
    ensures AssignAll(a, st, kind, ids).state.calls == st.calls
    ensures AssignAll(a, st, kind, ids).state.counters == st.counters
    decreases |ids|
  {
    if ids != [] {
      var first := Assign(a, st, EntityRef(kind, ids[0]));
      if first.outcome.Proceed? {
        assert forall id | id in ids[1..] :: id in ids;
        AssignAllIdle(a, first.state, kind, ids[1..]);
      }
    }
  }

  /** After a successful backfill every listed entity the policy admits has
      the identifier property. */
  lemma InitializeIdentifies(a: Assigner, st: State, nodes: seq<EntityId>, relationships: seq<EntityId>,
                             admits: EntityRef -> bool)
    requires AllIn(st.graph, Node, nodes) && AllIn(st.graph, Relationship, relationships)
    requires Initialize(a, st, nodes, relationships, admits).outcome.Proceed?
    ensures var once := Initialize(a, st, nodes, relationships, admits).state;
            once.graph.Keys == st.graph.Keys
            && (forall id | id in Included(Node, nodes, admits) :: a.property in once.graph[EntityRef(Node, id)])
            && (forall id | id in Included(Relationship, relationships, admits) ::
                  a.property in once.graph[EntityRef(Relationship, id)])
  {
    var ns := Included(Node, nodes, admits);
    var rs := Included(Relationship, relationships, admits);
    var n := AssignAll(a, st, Node, ns);
    AssignAllIdentifies(a, st, Node, ns);
    AssignAllIdentifies(a, n.state, Relationship, rs);
    var once := AssignAll(a, n.state, Relationship, rs).state;
    forall id | id in ns ensures a.property in once.graph[EntityRef(Node, id)] {
      assert Identified(a, n.state, EntityRef(Node, id));
    }
    forall id | id in rs ensures a.property in once.graph[EntityRef(Relationship, id)] {
      assert Identified(a, once, EntityRef(Relationship, id));
    }
  }

  /** Backfilling after a successful backfill changes no property and calls
      no generator: existing identifiers are kept, never replaced. */
  lemma InitializeTwice(a: Assigner, st: State, nodes: seq<EntityId>, relationships: seq<EntityId>,
                        admits: EntityRef -> bool)
    requires AllIn(st.graph, Node, nodes) && AllIn(st.graph, Relationship, relationships)
    requires Initialize(a, st, nodes, relationships, admits).outcome.Proceed?
    ensures var once := Initialize(a, st, nodes, relationships, admits).state;
            AllIn(once.graph, Node, nodes) && AllIn(once.graph, Relationship, relationships)
            && var twice := Initialize(a, once, nodes, relationships, admits).state;
               twice.graph == once.graph && twice.calls == once.calls && twice.counters == once.counters
  {
    var once := Initialize(a, st, nodes, relationships, admits).state;
    InitializeIdentifies(a, st, nodes, relationships, admits);
    var ns := Included(Node, nodes, admits);
    var rs := Included(Relationship, relationships, admits);
    AssignAllIdle(a, once, Node, ns);
    var n2 := AssignAll(a, once, Node, ns);
    AssignAllIdle(a, n2.state, Relationship, rs);
  }

  /** A run over a list whose later entity carries a value already indexed
      for an entity outside the list rolls back. */
  lemma {:induction false} DuplicateOfIndexedRollsBack(a: Assigner, st: State, kind: Kind, ids: seq<EntityId>,
                                                       j: nat, v: string, x: EntityId)
    requires AllIn(st.graph, kind, ids)
    requires forall p, q :: 0 <= p < q < |ids| ==> ids[p] != ids[q]
    requires forall e | e in IndexOf(st, kind).entries :: e.id !in ids
    requires IndexOf(st, kind).present && Entry(v, x) in IndexOf(st, kind).entries
    requires j < |ids| && a.property in st.graph[EntityRef(kind, ids[j])]
    requires ToString(st.graph[EntityRef(kind, ids[j])][a.property]) == v
    ensures AssignAll(a, st, kind, ids).outcome.Rollback?
    decreases |ids|
  {
    var first := Assign(a, st, EntityRef(kind, ids[0]));
    if j > 0 && first.outcome.Proceed? {
      assert forall id | id in ids[1..] :: id in ids;
      assert ids[1..][j - 1] == ids[j];
      assert ids[0] !in ids[1..];
      DuplicateOfIndexedRollsBack(a, first.state, kind, ids[1..], j - 1, v, x);
    }
  }

  /** Two distinct entities in one run that carry the same preset value,
      neither of them indexed yet, make the run roll back. */
  lemma {:induction false} DuplicatePresetRollsBack(a: Assigner, st: State, kind: Kind, ids: seq<EntityId>,
                                                    i: nat, j: nat)
    requires AllIn(st.graph, kind, ids)
    requires forall p, q :: 0 <= p < q < |ids| ==> ids[p] != ids[q]
    requires forall e | e in IndexOf(st, kind).entries :: e.id !in ids
    requires i < j < |ids|
    requires a.property in st.graph[EntityRef(kind, ids[i])] && a.property in st.graph[EntityRef(kind, ids[j])]
    requires ToString(st.graph[EntityRef(kind, ids[i])][a.property])
             == ToString(st.graph[EntityRef(kind, ids[j])][a.property])
    ensures AssignAll(a, st, kind, ids).outcome.Rollback?
    decreases |ids|
  {
    var first := Assign(a, st, EntityRef(kind, ids[0]));
    if first.outcome.Proceed? {
      assert forall id | id in ids[1..] :: id in ids;
      assert ids[1..][j - 1] == ids[j];
      assert ids[0] !in ids[1..];
      if i == 0 {
        var v := ToString(st.graph[EntityRef(kind, ids[0])][a.property]);
        assert Entry(v, ids[0]) in IndexOf(first.state, kind).entries;
        DuplicateOfIndexedRollsBack(a, first.state, kind, ids[1..], j - 1, v, ids[0]);
      } else {
        assert ids[1..][i - 1] == ids[i];
        DuplicatePresetRollsBack(a, first.state, kind, ids[1..], i - 1, j - 1);
      }
    }
  }

  /** The kind phase keeps every property, the other kind's index, and
      every entity of the other kind. */
  lemma KindPhaseFrame(a: Assigner, st: State, kind: Kind, changes: EntityChanges)
    requires AllIn(st.graph, kind, changes.created)
    ensures var r := KindPhase(a, st, kind, changes);
            r.state.graph.Keys == st.graph.Keys
            && (forall other | other in st.graph && other.kind != kind :: r.state.graph[other] == st.graph[other])
            && (forall other, k | other in st.graph && k in st.graph[other] ::
                  k in r.state.graph[other] && r.state.graph[other][k] == st.graph[other][k])
            && IndexOf(r.state, Other(kind)) == IndexOf(st, Other(kind))
  {
  }

  /** Every entity the hook writes to keeps every property it had: an
      identifier that is already there is never replaced. */
  lemma ExistingPropertiesKept(a: Assigner, st: State, tx: TransactionData)
    requires CreatedExist(st.graph, tx)
    ensures var r := BeforeCommit(a, st, tx);
            r.state.graph.Keys == st.graph.Keys
            && forall ref, k | ref in st.graph && k in st.graph[ref] ::
                 k in r.state.graph[ref] && r.state.graph[ref][k] == st.graph[ref][k]
  {
    KindPhaseFrame(a, st, Node, tx.nodes);
    var n := KindPhase(a, st, Node, tx.nodes);
    if n.outcome.Proceed? {
      KindPhaseFrame(a, n.state, Relationship, tx.relationships);
    }
  }

  /** When the hook lets the transaction commit, every created entity that
      is not also deleted has the identifier property and is indexed under
      its string form. */
  lemma CreatedIdentified(a: Assigner, st: State, tx: TransactionData)
    requires CreatedExist(st.graph, tx)
    ensures BeforeCommit(a, st, tx).outcome.Proceed? ==>
              (forall id | id in tx.nodes.created && id !in tx.nodes.deleted ::
                 Identified(a, BeforeCommit(a, st, tx).state, EntityRef(Node, id)))
              && (forall id | id in tx.relationships.created && id !in tx.relationships.deleted ::
                    Identified(a, BeforeCommit(a, st, tx).state, EntityRef(Relationship, id)))
  {
    var n := KindPhase(a, st, Node, tx.nodes);
    if n.outcome.Proceed? {
      AssignAllIdentifies(a, st, Node, tx.nodes.created);
      var r := KindPhase(a, n.state, Relationship, tx.relationships);
      KindPhaseFrame(a, n.state, Relationship, tx.relationships);
      AssignAllIdentifies(a, n.state, Relationship, tx.relationships.created);
      forall id | id in tx.nodes.created && id !in tx.nodes.deleted
        ensures Identified(a, r.state, EntityRef(Node, id))
      {
        assert Identified(a, AssignAll(a, st, Node, tx.nodes.created).state, EntityRef(Node, id));
      }
    }
  }

  /** When the hook lets the transaction commit, no deleted entity is left
      in its index, so no lookup can return it. */
  lemma DeletedUnindexed(a: Assigner, st: State, tx: TransactionData)
    requires CreatedExist(st.graph, tx)
    ensures var r := BeforeCommit(a, st, tx);
            r.outcome.Proceed? ==>
              (forall e | e in r.state.nodeIndex.entries :: e.id !in tx.nodes.deleted)
              && (forall e | e in r.state.relationshipIndex.entries :: e.id !in tx.relationships.deleted)
              && (forall v | FirstHit(r.state.nodeIndex, v).Some? ::
                    FirstHit(r.state.nodeIndex, v).value !in tx.nodes.deleted)
              && (forall v | FirstHit(r.state.relationshipIndex, v).Some? ::
                    FirstHit(r.state.relationshipIndex, v).value !in tx.relationships.deleted)
  {
    var n := KindPhase(a, st, Node, tx.nodes);
    if n.outcome.Proceed? {
      KindPhaseFrame(a, n.state, Relationship, tx.relationships);
    }
  }

  /** The identifier property is immutable: the hook lets the transaction
      commit only if every changed entity kept its identifier, and any
      removed or modified identifier rolls it back. */
  lemma ChangesGuarded(a: Assigner, st: State, tx: TransactionData)
    requires CreatedExist(st.graph, tx)
    ensures BeforeCommit(a, st, tx).outcome.Proceed? ==>
              (forall c | c in tx.nodes.changed :: Kept(a.property, c))
              && (forall c | c in tx.relationships.changed :: Kept(a.property, c))
    ensures (exists c | c in tx.nodes.changed :: !Kept(a.property, c))
            || (exists c | c in tx.relationships.changed :: !Kept(a.property, c))
            ==> BeforeCommit(a, st, tx).outcome.Rollback?
  {
  }

  /** Nodes are handled before relationships: when the node phase rolls
      back, no relationship and no relationship index entry was touched. */
  lemma NodeFailureSparesRelationships(a: Assigner, st: State, tx: TransactionData)
    requires CreatedExist(st.graph, tx)
    requires KindPhase(a, st, Node, tx.nodes).outcome.Rollback?
    ensures var r := BeforeCommit(a, st, tx);
            r.outcome.Rollback? && r.state.relationshipIndex == st.relationshipIndex
            && forall ref | ref in st.graph && ref.kind == Relationship :: ref in r.state.graph && r.state.graph[ref] == st.graph[ref]
  {
    KindPhaseFrame(a, st, Node, tx.nodes);
  }

  /** Two distinct created entities of one kind that carry the same preset
      identifier, neither indexed before, roll the transaction back, so
      neither is committed. */
  lemma DuplicatePresetAborts(a: Assigner, st: State, tx: TransactionData, kind: Kind, i: nat, j: nat)
    requires CreatedExist(st.graph, tx)
    requires var ids := ChangesOf(tx, kind).created;
             (forall p, q :: 0 <= p < q < |ids| ==> ids[p] != ids[q])
             && (forall e | e in IndexOf(st, kind).entries :: e.id !in ids)
             && i < j < |ids|
             && a.property in st.graph[EntityRef(kind, ids[i])] && a.property in st.graph[EntityRef(kind, ids[j])]
             && ToString(st.graph[EntityRef(kind, ids[i])][a.property])
                == ToString(st.graph[EntityRef(kind, ids[j])][a.property])
    ensures BeforeCommit(a, st, tx).outcome.Rollback?
    ensures var c := Committed(st, BeforeCommit(a, st, tx));
            c.graph == st.graph && c.nodeIndex == st.nodeIndex && c.relationshipIndex == st.relationshipIndex
            && c.counters == st.counters
  {
    var ids := ChangesOf(tx, kind).created;
    if kind == Node {
      DuplicatePresetRollsBack(a, st, Node, ids, i, j);
    } else {
      var n := KindPhase(a, st, Node, tx.nodes);
      if n.outcome.Proceed? {
        KindPhaseFrame(a, st, Node, tx.nodes);
        DuplicatePresetRollsBack(a, n.state, Relationship, ids, i, j);
      }
    }
  }

  /** An index with entries is present (an absent index holds nothing). */
  predicate WellFormed(idx: IndexState)
  {
    idx.present || idx.entries == []
  }

  /** One assignment keeps an index of unique identifiers unique, provided a
      newly generated identifier is not already indexed: a preset identifier
      is validated against the index before it is indexed. */
  lemma AssignKeepsUnique(a: Assigner, st: State, ref: EntityRef)
    requires ref in st.graph && WellFormed(IndexOf(st, ref.kind)) && Unique(IndexOf(st, ref.kind))
    requires a.property !in st.graph[ref] && Assign(a, st, ref).outcome.Proceed? ==>
               var v := ToString(Assign(a, st, ref).state.graph[ref][a.property]);
               forall e | e in IndexOf(st, ref.kind).entries :: e.value != v
    ensures WellFormed(IndexOf(Assign(a, st, ref).state, ref.kind))
    ensures Unique(IndexOf(Assign(a, st, ref).state, ref.kind))
  {
    var r := Assign(a, st, ref);
    var idx := IndexOf(st, ref.kind);
    if r.outcome.Proceed? {
      var v := ToString(r.state.graph[ref][a.property]);
      assert IndexOf(r.state, ref.kind) == WithEntry(idx, v, ref.id);
      if a.property in st.graph[ref] {
        assert HoldsOnly(idx, v, ref.id);
      }
      AddKeepsUnique(idx, v, ref.id);
    }
  }
}
