/** The UUID module's configuration: an immutable value with fluent
    single-field updates. */
module UuidConfig {
  import opened Host
  import opened Policies

  /** `Properties.UUID` and `Indexes.UUID_NODE_INDEX`; their values live
      outside this model, the names here stand for them. */
  const DefaultUuidProperty: string := "uuid"
  const DefaultUuidIndex: string := "uuidIndex"

  datatype UuidConfiguration = UuidConfiguration(
    inclusionPolicies: InclusionPolicies, uuidProperty: string, uuidIndex: string)

  /** `defaultConfiguration`. */
  function DefaultConfiguration(): (c: UuidConfiguration)
    ensures c.inclusionPolicies == AllBusinessPolicies
    ensures c.uuidProperty == DefaultUuidProperty && c.uuidIndex == DefaultUuidIndex
  {
    UuidConfiguration(AllBusinessPolicies, DefaultUuidProperty, DefaultUuidIndex)
  }

  /** `newInstance`: new policies, the UUID fields carried over. */
  function NewInstance(c: UuidConfiguration, inclusionPolicies: InclusionPolicies): (r: UuidConfiguration)
    ensures r.inclusionPolicies == inclusionPolicies
    ensures r.uuidProperty == c.uuidProperty && r.uuidIndex == c.uuidIndex
  {
    c.(inclusionPolicies := inclusionPolicies)
  }

  /** `withUuidProperty`: only the property changes. */
  function WithUuidProperty(c: UuidConfiguration, uuidProperty: string): (r: UuidConfiguration)
    ensures r.uuidProperty == uuidProperty
    ensures r.inclusionPolicies == c.inclusionPolicies && r.uuidIndex == c.uuidIndex
  {
    UuidConfiguration(c.inclusionPolicies, uuidProperty, c.uuidIndex)
  }

  /** `withUuidIndex`: only the index name changes. */
  function WithUuidIndex(c: UuidConfiguration, uuidIndex: string): (r: UuidConfiguration)
    ensures r.uuidIndex == uuidIndex
    ensures r.inclusionPolicies == c.inclusionPolicies && r.uuidProperty == c.uuidProperty
  {
    UuidConfiguration(c.inclusionPolicies, c.uuidProperty, uuidIndex)
  }

  /** `equals`: the policies (the base class's comparison), the property
      and the index agree; that is exactly equality of the values. */
  predicate Equals(a: UuidConfiguration, b: UuidConfiguration)
    ensures Equals(a, b) <==> a == b
  {
    a.inclusionPolicies == b.inclusionPolicies && a.uuidProperty == b.uuidProperty && a.uuidIndex == b.uuidIndex
  }

  /** `hashCode`, given the base class's hash of the policies. */
  function HashCode(c: UuidConfiguration, policiesHash: InclusionPolicies -> int): (h: int)
    ensures -0x8000_0000 <= h < 0x8000_0000
  {
    var result := Int32(policiesHash(c.inclusionPolicies));
    var result := Int32(31 * result + StringHash(c.uuidProperty));
    Int32(31 * result + StringHash(c.uuidIndex))
  }

  /** Equal configurations have equal hash codes: the hash reads only the
      fields `equals` compares. */
  lemma HashCodeAgreesWithEquals(a: UuidConfiguration, b: UuidConfiguration, policiesHash: InclusionPolicies -> int)
    requires Equals(a, b)
    ensures HashCode(a, policiesHash) == HashCode(b, policiesHash)
  {
  }

  /** Two default configurations are equal. */
  lemma DefaultsEqual()
    ensures Equals(DefaultConfiguration(), DefaultConfiguration())
  {
  }

  /** The fluent updates commute: each writes its own field only. */
  lemma UpdatesCommute(c: UuidConfiguration, p: string, i: string)
    ensures WithUuidIndex(WithUuidProperty(c, p), i) == WithUuidProperty(WithUuidIndex(c, i), p)
  {
  }
}
