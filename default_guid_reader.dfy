/** `DefaultGuidReader`: the id of the single entity indexed under a GUID,
    NotFound when there is none; a GUID held by several entities makes the
    index's single-hit lookup fail. */
module DefaultGuidReader {
  import opened Wrappers
  import opened Host
  import opened LegacyIndex

  datatype ReadError =
    /** NotFoundException. */
    | Missing(notFound: NotFoundException)
    /** The index's NoSuchElementException for several hits. */
    | Ambiguous(value: string)

  /** `getNodeIdByGuid`. */
  function GetNodeIdByGuid(nodeIndex: IndexState, guid: string): (r: Result<EntityId, ReadError>)
    ensures r.Ok? ==> HoldsOnly(nodeIndex, guid, r.value) && Entry(guid, r.value) in nodeIndex.entries
    ensures (r == Err(Missing(NotFound("Node with GUID " + guid + " does not exist"))))
            <==> FirstHit(nodeIndex, guid).None?
    ensures r == Err(Ambiguous(guid)) <==> SingleHit(nodeIndex, guid).Err?
    ensures forall id: EntityId | Entry(guid, id) in nodeIndex.entries ::
              nodeIndex.present && HoldsOnly(nodeIndex, guid, id) ==> r == Ok(id)
  {
    match SingleHit(nodeIndex, guid)
    case Err(_) => Err(Ambiguous(guid))
    case Ok(None) => Err(Missing(NotFound("Node with GUID " + guid + " does not exist")))
    case Ok(Some(id)) => Ok(id)
  }

  /** `getRelationshipIdByGuid`. */
  function GetRelationshipIdByGuid(relationshipIndex: IndexState, guid: string): (r: Result<EntityId, ReadError>)
    ensures r.Ok? ==> HoldsOnly(relationshipIndex, guid, r.value) && Entry(guid, r.value) in relationshipIndex.entries
    ensures (r == Err(Missing(NotFound("Relationship with GUID " + guid + " does not exist"))))
            <==> FirstHit(relationshipIndex, guid).None?
    ensures r == Err(Ambiguous(guid)) <==> SingleHit(relationshipIndex, guid).Err?
    ensures forall id: EntityId | Entry(guid, id) in relationshipIndex.entries ::
              relationshipIndex.present && HoldsOnly(relationshipIndex, guid, id) ==> r == Ok(id)
  {
    match SingleHit(relationshipIndex, guid)
    case Err(_) => Err(Ambiguous(guid))
    case Ok(None) => Err(Missing(NotFound("Relationship with GUID " + guid + " does not exist")))
    case Ok(Some(id)) => Ok(id)
  }

  /** An entity indexed as the only holder of its GUID is found by it; after
      the entity is deleted from the index the lookup raises NotFound. */
  lemma ReadAfterIndexAndDelete(idx: IndexState, guid: string, id: EntityId)
    requires HoldsOnly(idx, guid, id)
    ensures GetNodeIdByGuid(WithEntry(idx, guid, id), guid) == Ok(id)
    ensures GetRelationshipIdByGuid(WithEntry(idx, guid, id), guid) == Ok(id)
    ensures GetNodeIdByGuid(WithoutEntity(WithEntry(idx, guid, id), id), guid)
              == Err(Missing(NotFound("Node with GUID " + guid + " does not exist")))
    ensures GetRelationshipIdByGuid(WithoutEntity(WithEntry(idx, guid, id), id), guid)
              == Err(Missing(NotFound("Relationship with GUID " + guid + " does not exist")))
  {
    LookupAfterAdd(idx, guid, id);
  }
}
