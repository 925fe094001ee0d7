/** The UUID module's indexers: a node index and a relationship index, both
    keyed by the UUID property, written on commit and read by lookups that
    return the first hit. The legacy and the explicit variant reach the
    same indexes through different store interfaces. */
module UuidIndex {
  import opened Wrappers
  import opened Host
  import opened LegacyIndex

  class LegacyIndexer {
    /** The configured UUID property (the index key). */
    const property: string
    /** The node index (configured `uuidIndex`). */
    const nodes: KindIndex
    /** The relationship index. */
    const relationships: KindIndex

    ghost predicate Valid()
    {
      nodes != relationships
    }

    constructor (property: string, nodes: KindIndex, relationships: KindIndex)
      requires nodes != relationships
      ensures Valid() && this.property == property && this.nodes == nodes && this.relationships == relationships
    {
      this.property := property;
      this.nodes := nodes;
      this.relationships := relationships;
    }

    function IndexFor(kind: Kind): KindIndex
    {
      if kind == Node then nodes else relationships
    }

    /** `indexNode`: add the node under its UUID's string form. */
    method IndexNode(id: EntityId, props: Props)
      requires property in props
      modifies nodes
      ensures nodes.State() == WithEntry(old(nodes.State()), ToString(props[property]), id)
    {
      nodes.Add(ToString(props[property]), id);
    }

    /** `indexRelationship`: add the relationship under its UUID's string form. */
    method IndexRelationship(id: EntityId, props: Props)
      requires property in props
      modifies relationships
      ensures relationships.State() == WithEntry(old(relationships.State()), ToString(props[property]), id)
    {
      relationships.Add(ToString(props[property]), id);
    }

    /** `index`: dispatch on the entity's kind; the other index is untouched. */
    method Index(ref: EntityRef, props: Props)
      requires Valid() && property in props
      modifies nodes, relationships
      ensures IndexFor(ref.kind).State() == WithEntry(old(IndexFor(ref.kind).State()), ToString(props[property]), ref.id)
      ensures ref.kind == Node ==> unchanged(relationships)
      ensures ref.kind == Relationship ==> unchanged(nodes)
    {
      if ref.kind == Node {
        IndexNode(ref.id, props);
      } else {
        IndexRelationship(ref.id, props);
      }
    }

    /** `getNodeByUuid`: the first node indexed under the value, or None
        when there is none or the index does not exist. */
    method GetNodeByUuid(uuid: string) returns (node: Option<EntityId>)
      ensures node.None? <==> !nodes.present || forall e | e in nodes.entries :: e.value != uuid
      ensures node.Some? ==> Entry(uuid, node.value) in nodes.entries
      ensures node == FirstHit(nodes.State(), uuid)
    {
      node := FirstHit(nodes.State(), uuid);
    }

    /** `getRelationshipByUuid`: the first relationship indexed under the
        value (key and value only, no start or end node), or None. */
    method GetRelationshipByUuid(uuid: string) returns (relationship: Option<EntityId>)
      ensures relationship.None? <==> !relationships.present || forall e | e in relationships.entries :: e.value != uuid
      ensures relationship.Some? ==> Entry(uuid, relationship.value) in relationships.entries
      ensures relationship == FirstHit(relationships.State(), uuid)
    {
      relationship := FirstHit(relationships.State(), uuid);
    }

    /** `deleteNodeFromIndex`: drop every entry of the node. */
    method DeleteNodeFromIndex(id: EntityId)
      modifies nodes
      ensures nodes.State() == WithoutEntity(old(nodes.State()), id)
    {
      nodes.Remove(id);
    }

    /** `deleteRelationshipFromIndex`: drop every entry of the relationship. */
    method DeleteRelationshipFromIndex(id: EntityId)
      modifies relationships
      ensures relationships.State() == WithoutEntity(old(relationships.State()), id)
    {
      relationships.Remove(id);
    }

    method DeleteFromIndex(ref: EntityRef)
      requires Valid()
      modifies nodes, relationships
      ensures IndexFor(ref.kind).State() == WithoutEntity(old(IndexFor(ref.kind).State()), ref.id)
      ensures ref.kind == Node ==> unchanged(relationships)
      ensures ref.kind == Relationship ==> unchanged(nodes)
    {
      if ref.kind == Node {
        DeleteNodeFromIndex(ref.id);
      } else {
        DeleteRelationshipFromIndex(ref.id);
      }
    }
  }

  class ExplicitIndexer {
    /** The configured UUID property (the index key). */
    const property: string
    /** The node index (configured `uuidIndex`). */
    const nodes: KindIndex
    /** The relationship index. */
    const relationships: KindIndex

    ghost predicate Valid()
    {
      nodes != relationships
    }

    constructor (property: string, nodes: KindIndex, relationships: KindIndex)
      requires nodes != relationships
      ensures Valid() && this.property == property && this.nodes == nodes && this.relationships == relationships
    {
      this.property := property;
      this.nodes := nodes;
      this.relationships := relationships;
    }

    /** `indexNode`: add the node under its UUID's string form. */
    method IndexNode(id: EntityId, props: Props)
      requires property in props
      modifies nodes
      ensures nodes.State() == WithEntry(old(nodes.State()), ToString(props[property]), id)
    {
      nodes.Add(ToString(props[property]), id);
    }

    /** `indexRelationship`: add the relationship under its UUID's string form. */
    method IndexRelationship(id: EntityId, props: Props)
      requires property in props
      modifies relationships
      ensures relationships.State() == WithEntry(old(relationships.State()), ToString(props[property]), id)
    {
      relationships.Add(ToString(props[property]), id);
    }

    /** `getNodeByUuid`: the first node indexed under the value, or None
        when there is none or the index does not exist (a warning, not an
        error). */
    method GetNodeByUuid(uuid: string) returns (node: Option<EntityId>)
      ensures node.None? <==> !nodes.present || forall e | e in nodes.entries :: e.value != uuid
      ensures node.Some? ==> Entry(uuid, node.value) in nodes.entries
      ensures node == FirstHit(nodes.State(), uuid)
    {
      node := FirstHit(nodes.State(), uuid);
    }

    /** `getRelationshipByUuid`: the first relationship indexed under the
        value (key and value only, no start or end node), or None. */
    method GetRelationshipByUuid(uuid: string) returns (relationship: Option<EntityId>)
      ensures relationship.None? <==> !relationships.present || forall e | e in relationships.entries :: e.value != uuid
      ensures relationship.Some? ==> Entry(uuid, relationship.value) in relationships.entries
      ensures relationship == FirstHit(relationships.State(), uuid)
    {
      relationship := FirstHit(relationships.State(), uuid);
    }

    /** `deleteNodeFromIndex`: drop every entry of the node. */
    method DeleteNodeFromIndex(id: EntityId)
      modifies nodes
      ensures nodes.State() == WithoutEntity(old(nodes.State()), id)
    {
      nodes.Remove(id);
    }

    /** `deleteRelationshipFromIndex`: drop every entry of the relationship. */
    method DeleteRelationshipFromIndex(id: EntityId)
      modifies relationships
      ensures relationships.State() == WithoutEntity(old(relationships.State()), id)
    {
      relationships.Remove(id);
    }
  }
}
