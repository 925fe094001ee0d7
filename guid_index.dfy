/** The GUID module's indexer: a node index and a relationship index, both
    keyed by the GUID property; a lookup expects at most one hit. */
module GuidIndex {
  import opened Wrappers
  import opened Host
  import opened LegacyIndex

  class LegacyIndexer {
    /** The configured GUID property (the index key). */
    const property: string
    /** The node index (configured `guidIndex`). */
    const nodes: KindIndex
    /** The relationship index (configured `guidRelationshipIndex`). */
    const relationships: KindIndex

    ghost predicate Valid()
    {
      nodes != relationships
    }

    constructor (property: string, nodes: KindIndex, relationships: KindIndex)
      requires nodes != relationships
      ensures Valid() && this.property == property && this.nodes == nodes && this.relationships == relationships
    {
      this.property := property;
      this.nodes := nodes;
      this.relationships := relationships;
    }

    function IndexFor(kind: Kind): KindIndex
    {
      if kind == Node then nodes else relationships
    }

    /** `indexNode`: add the node under its GUID's string form. */
    method IndexNode(id: EntityId, props: Props)
      requires property in props
      modifies nodes
      ensures nodes.State() == WithEntry(old(nodes.State()), ToString(props[property]), id)
    {
      nodes.Add(ToString(props[property]), id);
    }

    /** `indexRelationship`: add the relationship under its GUID's string form. */
    method IndexRelationship(id: EntityId, props: Props)
      requires property in props
      modifies relationships
      ensures relationships.State() == WithEntry(old(relationships.State()), ToString(props[property]), id)
    {
      relationships.Add(ToString(props[property]), id);
    }

    /** `index` (the interface's default method): a node goes to the node
        index, anything else to the relationship index. */
    method Index(ref: EntityRef, props: Props)
      requires Valid() && property in props
      modifies nodes, relationships
      ensures IndexFor(ref.kind).State() == WithEntry(old(IndexFor(ref.kind).State()), ToString(props[property]), ref.id)
      ensures ref.kind == Node ==> unchanged(relationships)
      ensures ref.kind == Relationship ==> unchanged(nodes)
    {
      if ref.kind == Node {
        IndexNode(ref.id, props);
      } else {
        IndexRelationship(ref.id, props);
      }
    }

    /** `getNodeByGuid`: `getSingle` on the hits; None when there is none,
        a failure when several nodes are indexed under the value. */
    method GetNodeByGuid(guid: string) returns (node: Result<Option<EntityId>, LookupError>)
      ensures node.Ok? && node.value.None? <==> FirstHit(nodes.State(), guid).None?
      ensures node.Ok? && node.value.Some? ==>
                HoldsOnly(nodes.State(), guid, node.value.value) && Entry(guid, node.value.value) in nodes.entries
      ensures node.Err? <==> nodes.present && exists e1, e2 | e1 in nodes.entries && e2 in nodes.entries ::
                               e1.value == guid && e2.value == guid && e1.id != e2.id
      ensures node == SingleHit(nodes.State(), guid)
    {
      node := SingleHit(nodes.State(), guid);
    }

    /** `getRelationshipByGuid`: as `getNodeByGuid`, on the relationship index. */
    method GetRelationshipByGuid(guid: string) returns (relationship: Result<Option<EntityId>, LookupError>)
      ensures relationship.Ok? && relationship.value.None? <==> FirstHit(relationships.State(), guid).None?
      ensures relationship.Ok? && relationship.value.Some? ==>
                HoldsOnly(relationships.State(), guid, relationship.value.value)
                && Entry(guid, relationship.value.value) in relationships.entries
      ensures relationship.Err? <==> relationships.present && exists e1, e2 | e1 in relationships.entries && e2 in relationships.entries ::
                                       e1.value == guid && e2.value == guid && e1.id != e2.id
      ensures relationship == SingleHit(relationships.State(), guid)
    {
      relationship := SingleHit(relationships.State(), guid);
    }

    /** `deleteNodeFromIndex`: drop every entry of the node. */
    method DeleteNodeFromIndex(id: EntityId)
      modifies nodes
      ensures nodes.State() == WithoutEntity(old(nodes.State()), id)
    {
      nodes.Remove(id);
    }

    /** `deleteRelationshipFromIndex`: drop every entry of the relationship. */
    method DeleteRelationshipFromIndex(id: EntityId)
      modifies relationships
      ensures relationships.State() == WithoutEntity(old(relationships.State()), id)
    {
      relationships.Remove(id);
    }

    method DeleteFromIndex(ref: EntityRef)
      requires Valid()
      modifies nodes, relationships
      ensures IndexFor(ref.kind).State() == WithoutEntity(old(IndexFor(ref.kind).State()), ref.id)
      ensures ref.kind == Node ==> unchanged(relationships)
      ensures ref.kind == Relationship ==> unchanged(nodes)
    {
      if ref.kind == Node {
        DeleteNodeFromIndex(ref.id);
      } else {
        DeleteRelationshipFromIndex(ref.id);
      }
    }
  }
}
