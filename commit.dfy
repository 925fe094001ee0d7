/** What the UUID and GUID commit hooks share: the state a hook reads and
    writes, why it rolls a transaction back, and the per-kind index and
    change checks both modules perform in the same way. */
module Commit {
  import opened Wrappers
  import opened Host
  import opened LegacyIndex

  /** Why a hook stops the transaction. */
  datatype Failure =
    /** Another entity of this kind is already indexed under the value. */
    | AlreadyExists(kind: Kind, value: string, existing: EntityId)
    /** An update removed the identifier property. */
    | NotAllowedToRemove(property: string)
    /** An update changed the identifier property. */
    | NotAllowedToModify(property: string)
    /** An update's previous state lacks the property (NotFoundException). */
    | PropertyNotFound(property: string)
    /** A GUID lookup found several entities (NoSuchElementException). */
    | AmbiguousLookup(value: string)
    /** The GUID sequence counter is not a singleton. */
    | SequenceFailed

  /** Whether the hook lets the transaction commit. */
  datatype Outcome = Proceed | Rollback(failure: Failure)

  /** What a hook reads and writes: the graph's entities and properties, the
      node and relationship indexes, how many identifiers the random
      generator has handed out, and the GUID sequence counter nodes. */
  datatype State = State(
    graph: map<EntityRef, Props>,
    nodeIndex: IndexState,
    relationshipIndex: IndexState,
    calls: nat,
    counters: seq<Long>)

  /** The outcome of a hook step and the state it leaves. */
  datatype Run = Run(outcome: Outcome, state: State)

  function IndexOf(st: State, kind: Kind): IndexState
  {
    if kind == Node then st.nodeIndex else st.relationshipIndex
  }

  function Other(kind: Kind): (k: Kind)
    ensures k != kind
  {
    if kind == Node then Relationship else Node
  }

  /** The state with the index for `kind` replaced and nothing else changed. */
  function WithIndex(st: State, kind: Kind, idx: IndexState): (r: State)
    ensures IndexOf(r, kind) == idx
    ensures IndexOf(r, Other(kind)) == IndexOf(st, Other(kind))
    ensures r.graph == st.graph && r.calls == st.calls && r.counters == st.counters
  {
    if kind == Node then st.(nodeIndex := idx) else st.(relationshipIndex := idx)
  }

  /** Indexing an entity (`index(pc)`): the entry for its identifier's string
      form is added to its kind's index. */
  function IndexEntity(st: State, ref: EntityRef, value: Value): (r: State)
    ensures IndexOf(r, ref.kind).present
    ensures forall e :: e in IndexOf(r, ref.kind).entries <==>
                        e in IndexOf(st, ref.kind).entries || e == Entry(ToString(value), ref.id)
    ensures IndexOf(r, Other(ref.kind)) == IndexOf(st, Other(ref.kind))
    ensures r.graph == st.graph && r.calls == st.calls && r.counters == st.counters
  {
    WithIndex(st, ref.kind, WithEntry(IndexOf(st, ref.kind), ToString(value), ref.id))
  }

  /** Removing every deleted entity from an index, one after the other. */
  function DeleteAll(idx: IndexState, ids: seq<EntityId>): (r: IndexState)
    ensures forall e :: e in r.entries <==> e in idx.entries && e.id !in ids
    ensures r.present == (idx.present || ids != [])
    decreases |ids|
  {
    if ids == [] then idx
    else WithoutEntity(DeleteAll(idx, ids[..|ids| - 1]), ids[|ids| - 1])
  }

  /** An update that leaves the identifier property as it was. */
  predicate Kept(property: string, c: Change)
  {
    property in c.previous && property in c.current && c.previous[property] == c.current[property]
  }

  /** The check on one changed entity, in the order the hook makes it:
      first removal, then the previous value's presence, then equality. */
  function CheckChange(property: string, c: Change): (r: Option<Failure>)
    ensures r.None? <==> Kept(property, c)
    ensures property !in c.current <==> r == Some(NotAllowedToRemove(property))
    ensures (property in c.current && property in c.previous && c.previous[property] != c.current[property])
              <==> r == Some(NotAllowedToModify(property))
  {
    if property !in c.current then Some(NotAllowedToRemove(property))
    else if property !in c.previous then Some(PropertyNotFound(property))
    else if c.previous[property] != c.current[property] then Some(NotAllowedToModify(property))
    else None
  }

  /** The checks on all changed entities: the first failing one stops. */
  function CheckChanges(property: string, cs: seq<Change>): (r: Option<Failure>)
    ensures r.None? <==> forall c | c in cs :: Kept(property, c)
    ensures r.Some? ==> exists i :: 0 <= i < |cs| && CheckChange(property, cs[i]) == r
                          && forall j :: 0 <= j < i ==> Kept(property, cs[j])
    decreases |cs|
  {
    if cs == [] then None
    else if CheckChange(property, cs[0]).Some? then CheckChange(property, cs[0])
    else
      var rest := CheckChanges(property, cs[1..]);
      assert forall c | c in cs[1..] :: c in cs;
      assert rest.Some? ==> exists i :: 0 <= i < |cs| && CheckChange(property, cs[i]) == rest
                              && forall j :: 0 <= j < i ==> Kept(property, cs[j]) by {
        if rest.Some? {
          var i :| 0 <= i < |cs[1..]| && CheckChange(property, cs[1..][i]) == rest
                   && forall j :: 0 <= j < i ==> Kept(property, cs[1..][j]);
          assert CheckChange(property, cs[i + 1]) == rest;
          assert forall j :: 0 <= j < i + 1 ==> Kept(property, cs[j]) by {
            forall j | 0 <= j < i + 1 ensures Kept(property, cs[j]) {
              if j > 0 { assert cs[j] == cs[1..][j - 1]; }
            }
          }
        }
      }
      rest
  }

  /** The state after the transaction: the hook's effects when it let the
      transaction proceed. A rollback restores the store, both indexes and
      the sequence counter nodes (all written inside the transaction), but
      not the random generators, which are not transactional: draws handed
      out before the rollback stay used. */
  function Committed(before: State, run: Run): (r: State)
    ensures run.outcome.Proceed? ==> r == run.state
    ensures run.outcome.Rollback? ==>
              r.graph == before.graph && r.nodeIndex == before.nodeIndex
              && r.relationshipIndex == before.relationshipIndex && r.counters == before.counters
              && r.calls == run.state.calls
  {
    if run.outcome.Proceed? then run.state else before.(calls := run.state.calls)
  }
}
