/** `DefaultUuidReader`: the id of the entity indexed under a UUID, or
    NotFound. It keeps no state of its own, so each call is a function of
    the current index. */
module DefaultUuidReader {
  import opened Wrappers
  import opened Host
  import opened LegacyIndex

  /** `getNodeIdByUuid`. */
  function GetNodeIdByUuid(nodeIndex: IndexState, uuid: string): (r: Result<EntityId, NotFoundException>)
    ensures r.Ok? <==> FirstHit(nodeIndex, uuid).Some?
    ensures r.Ok? ==> nodeIndex.present && Entry(uuid, r.value) in nodeIndex.entries
    ensures r.Err? ==> r.error == NotFound("Node with UUID " + uuid + " does not exist")
  {
    match FirstHit(nodeIndex, uuid)
    case None => Err(NotFound("Node with UUID " + uuid + " does not exist"))
    case Some(id) => Ok(id)
  }

  /** `getRelationshipIdByUuid`. */
  function GetRelationshipIdByUuid(relationshipIndex: IndexState, uuid: string): (r: Result<EntityId, NotFoundException>)
    ensures r.Ok? <==> FirstHit(relationshipIndex, uuid).Some?
    ensures r.Ok? ==> relationshipIndex.present && Entry(uuid, r.value) in relationshipIndex.entries
    ensures r.Err? ==> r.error == NotFound("Relationship with UUID " + uuid + " does not exist")
  {
    match FirstHit(relationshipIndex, uuid)
    case None => Err(NotFound("Relationship with UUID " + uuid + " does not exist"))
    case Some(id) => Ok(id)
  }

  /** An entity indexed as the only holder of its UUID is found by it; once
      it is removed from the index, the same lookup raises NotFound. */
  lemma ReadAfterIndexAndDelete(idx: IndexState, uuid: string, id: EntityId)
    requires HoldsOnly(idx, uuid, id)
    ensures GetNodeIdByUuid(WithEntry(idx, uuid, id), uuid) == Ok(id)
    ensures GetRelationshipIdByUuid(WithEntry(idx, uuid, id), uuid) == Ok(id)
    ensures GetNodeIdByUuid(WithoutEntity(WithEntry(idx, uuid, id), id), uuid).Err?
    ensures GetRelationshipIdByUuid(WithoutEntity(WithEntry(idx, uuid, id), id), uuid).Err?
  {
    LookupAfterAdd(idx, uuid, id);
  }
}
