/** The host's legacy ("explicit") index of one entity kind, as the identifier
    indexers use it: entries (identifier string -> entity id) under the one
    configured property key, created lazily on first write. */
module LegacyIndex {
  import opened Wrappers
  import opened Host

  /** One index entry: the string form of an identifier and the entity holding it. */
  datatype Entry = Entry(value: string, id: EntityId)

  /** An index: whether it has been created yet, and its entries in insertion order. */
  datatype IndexState = IndexState(present: bool, entries: seq<Entry>)

  /** An index that has not been created yet. */
  const Missing: IndexState := IndexState(false, [])

  /** No identifier string is held by two different entities. */
  ghost predicate Unique(idx: IndexState)
  {
    forall e1, e2 | e1 in idx.entries && e2 in idx.entries :: e1.value == e2.value ==> e1.id == e2.id
  }

  /** The entity the index holds under `v`, if exactly one, and `None` if none. */
  ghost predicate HoldsOnly(idx: IndexState, v: string, id: EntityId)
  {
    forall e | e in idx.entries && e.value == v :: e.id == id
  }

  // ---------------------------------------------------------------------
  // Writes: Index.add and Index.remove
  // ---------------------------------------------------------------------

  /** `Index.add(entity, key, value)`: creates the index if needed; adding an
      entry that is already there changes nothing. */
  function WithEntry(idx: IndexState, v: string, id: EntityId): (r: IndexState)
    ensures r.present
    ensures forall e :: e in r.entries <==> e in idx.entries || e == Entry(v, id)
  {
    IndexState(true, if Entry(v, id) in idx.entries then idx.entries else idx.entries + [Entry(v, id)])
  }

  function EntriesWithout(es: seq<Entry>, id: EntityId): (r: seq<Entry>)
    ensures forall e :: e in r <==> e in es && e.id != id
  {
    if es == [] then []
    else if es[0].id == id then EntriesWithout(es[1..], id)
    else [es[0]] + EntriesWithout(es[1..], id)
  }

  /** `Index.remove(entity, key)`: drops every entry of the entity. */
  function WithoutEntity(idx: IndexState, id: EntityId): (r: IndexState)
    ensures r.present
    ensures forall e :: e in r.entries <==> e in idx.entries && e.id != id
  {
    IndexState(true, EntriesWithout(idx.entries, id))
  }

  // ---------------------------------------------------------------------
  // Reads: first hit (uuid indexers) and getSingle (guid indexer)
  // ---------------------------------------------------------------------

  function FirstHitIn(es: seq<Entry>, v: string): (r: Option<EntityId>)
    ensures r.None? <==> forall e | e in es :: e.value != v
    ensures r.Some? ==> Entry(v, r.value) in es
  {
    if es == [] then None
    else if es[0].value == v then Some(es[0].id)
    else FirstHitIn(es[1..], v)
  }

  /** `get(key, v)` followed by "the first hit, or null": a missing index
      yields null rather than an error. */
  function FirstHit(idx: IndexState, v: string): (r: Option<EntityId>)
    ensures r.None? <==> !idx.present || forall e | e in idx.entries :: e.value != v
    ensures r.Some? ==> idx.present && Entry(v, r.value) in idx.entries
  {
    if idx.present then FirstHitIn(idx.entries, v) else None
  }

  /** Why `IndexHits.getSingle()` refused to answer. */
  datatype LookupError = MoreThanOneHit(value: string)

  /** `get(key, v).getSingle()`: the one entity under `v`, null if none, and a
      failure when two different entities are found. */
  function SingleHit(idx: IndexState, v: string): (r: Result<Option<EntityId>, LookupError>)
    ensures r.Ok? && r.value.None? <==> FirstHit(idx, v).None?
    ensures r.Ok? && r.value.Some? ==> idx.present && HoldsOnly(idx, v, r.value.value) && Entry(v, r.value.value) in idx.entries
    ensures r.Err? ==> r.error == MoreThanOneHit(v) && exists e1, e2 | e1 in idx.entries && e2 in idx.entries :: e1.value == v && e2.value == v && e1.id != e2.id
  {
    var first := FirstHit(idx, v);
    if first.None? then Ok(None)
    else if exists e | e in idx.entries :: e.value == v && e.id != first.value then Err(MoreThanOneHit(v))
    else Ok(first)
  }

  // ---------------------------------------------------------------------
  // Laws
  // ---------------------------------------------------------------------

  /** Appending an entry does not change an earlier answer, and answers the
      value it carries when nothing earlier did. */
  lemma {:induction false} FirstHitAppend(es: seq<Entry>, e: Entry, v: string)
    ensures FirstHitIn(es + [e], v) ==
              if FirstHitIn(es, v).Some? then FirstHitIn(es, v)
              else if e.value == v then Some(e.id) else None
  {
    if es != [] {
      assert (es + [e])[1..] == es[1..] + [e];
      FirstHitAppend(es[1..], e, v);
    }
  }

  /** Index-then-lookup: once an entity is indexed under `v`, a lookup of `v`
      finds it, provided no other entity holds `v`. */
  lemma LookupAfterAdd(idx: IndexState, v: string, id: EntityId)
    requires HoldsOnly(idx, v, id)
    ensures FirstHit(WithEntry(idx, v, id), v) == Some(id)
    ensures SingleHit(WithEntry(idx, v, id), v) == Ok(Some(id))
  {
  }

  /** Writing one value leaves every lookup of another value as it was, once
      the index exists. */
  lemma LookupOtherAfterAdd(idx: IndexState, v: string, id: EntityId, w: string)
    requires idx.present && w != v
    ensures FirstHit(WithEntry(idx, v, id), w) == FirstHit(idx, w)
  {
    if Entry(v, id) !in idx.entries {
      FirstHitAppend(idx.entries, Entry(v, id), w);
    }
  }

  /** Delete-then-lookup: after an entity is removed no lookup returns it. */
  lemma LookupAfterRemove(idx: IndexState, id: EntityId, v: string)
    ensures FirstHit(WithoutEntity(idx, id), v) != Some(id)
    ensures SingleHit(WithoutEntity(idx, id), v) != Ok(Some(id))
  {
  }

  /** Adding `v` for `id` keeps the index unique exactly when no other entity
      already holds `v`. */
  lemma AddKeepsUnique(idx: IndexState, v: string, id: EntityId)
    requires Unique(idx)
    ensures Unique(WithEntry(idx, v, id)) <==> HoldsOnly(idx, v, id)
  {
    if !HoldsOnly(idx, v, id) {
      var e :| e in idx.entries && e.value == v && e.id != id;
      assert Entry(v, id) in WithEntry(idx, v, id).entries;
    }
  }

  /** On a unique index the first hit is the only hit. */
  lemma UniqueFirstHitIsOnly(idx: IndexState, v: string, id: EntityId)
    requires Unique(idx)
    ensures FirstHit(idx, v) == Some(id) <==> idx.present && Entry(v, id) in idx.entries
    ensures SingleHit(idx, v) == Ok(FirstHit(idx, v))
  {
  }

  // ---------------------------------------------------------------------
  // The index object that the indexers write through
  // ---------------------------------------------------------------------

  class KindIndex {
    var present: bool
    var entries: seq<Entry>

    function State(): IndexState
      reads this
    {
      IndexState(present, entries)
    }

    constructor (init: IndexState)
      ensures State() == init
    {
      present, entries := init.present, init.entries;
    }

    method Add(v: string, id: EntityId)
      modifies this
      ensures State() == WithEntry(old(State()), v, id)
    {
      if Entry(v, id) !in entries {
        entries := entries + [Entry(v, id)];
      }
      present := true;
    }

    method Remove(id: EntityId)
      modifies this
      ensures State() == WithoutEntity(old(State()), id)
    {
      entries := EntriesWithout(entries, id);
      present := true;
    }
  }
}
