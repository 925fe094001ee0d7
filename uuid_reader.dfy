/** `UuidReader`: the node indexed under a UUID, or NotFound; each lookup
    runs in its own read transaction, which this model leaves implicit. */
module UuidReader {
  import opened Wrappers
  import opened Host
  import opened LegacyIndex

  /** `getNodeByUuid`. */
  function GetNodeByUuid(nodeIndex: IndexState, uuid: string): (r: Result<EntityRef, NotFoundException>)
    ensures r.Ok? <==> FirstHit(nodeIndex, uuid).Some?
    ensures r.Ok? ==> r.value.kind == Node && Entry(uuid, r.value.id) in nodeIndex.entries
    ensures r.Err? ==> r.error == NotFound("Node with UUID " + uuid + " does not exist")
  {
    match FirstHit(nodeIndex, uuid)
    case None => Err(NotFound("Node with UUID " + uuid + " does not exist"))
    case Some(id) => Ok(EntityRef(Node, id))
  }

  /** `getNodeIdByUuid`: the id of the node `getNodeByUuid` finds; its
      NotFound passes through unchanged. */
  function GetNodeIdByUuid(nodeIndex: IndexState, uuid: string): (r: Result<EntityId, NotFoundException>)
    ensures r.Ok? <==> GetNodeByUuid(nodeIndex, uuid).Ok?
    ensures r.Ok? ==> r.value == GetNodeByUuid(nodeIndex, uuid).value.id
    ensures r.Err? ==> GetNodeByUuid(nodeIndex, uuid) == Err(r.error)
  {
    var node := GetNodeByUuid(nodeIndex, uuid);
    if node.Err? then Err(node.error) else Ok(node.value.id)
  }

  /** A node indexed as the only holder of its UUID is the one returned. */
  lemma ReadIndexedNode(idx: IndexState, uuid: string, id: EntityId)
    requires HoldsOnly(idx, uuid, id)
    ensures GetNodeByUuid(WithEntry(idx, uuid, id), uuid) == Ok(EntityRef(Node, id))
    ensures GetNodeIdByUuid(WithEntry(idx, uuid, id), uuid) == Ok(id)
  {
    LookupAfterAdd(idx, uuid, id);
  }
}
