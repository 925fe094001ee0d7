/** The GUID module's configuration: an immutable value with fluent
    single-field updates. */
module GuidConfig {
  import opened Host
  import opened Policies

  const DefaultGuidGenerator: string := "com.graphaware.module.guid.generator.EaioUUIDGenerator"
  /** `Properties.GUID`, `Indexes.GUID_NODE_INDEX`, `Indexes.GUID_REL_INDEX`
      and the base class's ALWAYS; their values live outside this model,
      the names here stand for them. */
  const DefaultGuidProperty: string := "guid"
  const DefaultGuidIndex: string := "guidIndex"
  const DefaultGuidRelationshipIndex: string := "guidRelIndex"
  const Always: Long := -1
  const DefaultStripHyphens: bool := false

  datatype GuidConfiguration = GuidConfiguration(
    inclusionPolicies: InclusionPolicies,
    initializeUntil: Long,
    guidGenerator: string,
    guidProperty: string,
    stripHyphens: bool,
    guidIndex: string,
    guidRelationshipIndex: string)

  /** `defaultConfiguration`: all business entities except relationships,
      the Eaio generator, no hyphen stripping. */
  function DefaultConfiguration(): (c: GuidConfiguration)
    ensures c.inclusionPolicies == AllBusinessPolicies.(relationships := IncludeNone)
    ensures c.inclusionPolicies.relationships == IncludeNone && c.inclusionPolicies.nodes == AllBusiness
    ensures c.initializeUntil == Always
    ensures c.guidGenerator == DefaultGuidGenerator && !c.stripHyphens
    ensures c.guidProperty == DefaultGuidProperty
    ensures c.guidIndex == DefaultGuidIndex && c.guidRelationshipIndex == DefaultGuidRelationshipIndex
  {
    GuidConfiguration(AllBusinessPolicies.(relationships := IncludeNone), Always, DefaultGuidGenerator,
                      DefaultGuidProperty, DefaultStripHyphens, DefaultGuidIndex, DefaultGuidRelationshipIndex)
  }

  /** The five GUID-specific fields agree. */
  predicate SameGuidFields(a: GuidConfiguration, b: GuidConfiguration)
  {
    a.guidGenerator == b.guidGenerator && a.guidProperty == b.guidProperty && a.stripHyphens == b.stripHyphens
    && a.guidIndex == b.guidIndex && a.guidRelationshipIndex == b.guidRelationshipIndex
  }

  /** `newInstance`: new policies and initialize-until, the GUID fields
      carried over. */
  function NewInstance(c: GuidConfiguration, inclusionPolicies: InclusionPolicies, initializeUntil: Long): (r: GuidConfiguration)
    ensures r.inclusionPolicies == inclusionPolicies && r.initializeUntil == initializeUntil
    ensures SameGuidFields(r, c)
  {
    c.(inclusionPolicies := inclusionPolicies, initializeUntil := initializeUntil)
  }

  /** `withGuidGenerator`: only the generator name changes. */
  function WithGuidGenerator(c: GuidConfiguration, guidGenerator: string): (r: GuidConfiguration)
    ensures r.guidGenerator == guidGenerator
    ensures r == c.(guidGenerator := r.guidGenerator)
  {
    GuidConfiguration(c.inclusionPolicies, c.initializeUntil, guidGenerator, c.guidProperty,
                      c.stripHyphens, c.guidIndex, c.guidRelationshipIndex)
  }

  /** `withGuidProperty`: only the property changes. */
  function WithGuidProperty(c: GuidConfiguration, guidProperty: string): (r: GuidConfiguration)
    ensures r.guidProperty == guidProperty
    ensures r == c.(guidProperty := r.guidProperty)
  {
    GuidConfiguration(c.inclusionPolicies, c.initializeUntil, c.guidGenerator, guidProperty,
                      c.stripHyphens, c.guidIndex, c.guidRelationshipIndex)
  }

  /** `withGuidIndex`: only the node index name changes. */
  function WithGuidIndex(c: GuidConfiguration, guidIndex: string): (r: GuidConfiguration)
    ensures r.guidIndex == guidIndex
    ensures r == c.(guidIndex := r.guidIndex)
  {
    GuidConfiguration(c.inclusionPolicies, c.initializeUntil, c.guidGenerator, c.guidProperty,
                      c.stripHyphens, guidIndex, c.guidRelationshipIndex)
  }

  /** `withGuidRelationshipIndex`: only the relationship index name changes. */
  function WithGuidRelationshipIndex(c: GuidConfiguration, guidRelationshipIndex: string): (r: GuidConfiguration)
    ensures r.guidRelationshipIndex == guidRelationshipIndex
    ensures r == c.(guidRelationshipIndex := r.guidRelationshipIndex)
  {
    GuidConfiguration(c.inclusionPolicies, c.initializeUntil, c.guidGenerator, c.guidProperty,
                      c.stripHyphens, c.guidIndex, guidRelationshipIndex)
  }

  /** `withStripHyphensProperty`: only the stripping flag changes. */
  function WithStripHyphensProperty(c: GuidConfiguration, stripHyphens: bool): (r: GuidConfiguration)
    ensures r.stripHyphens == stripHyphens
    ensures r == c.(stripHyphens := r.stripHyphens)
  {
    GuidConfiguration(c.inclusionPolicies, c.initializeUntil, c.guidGenerator, c.guidProperty,
                      stripHyphens, c.guidIndex, c.guidRelationshipIndex)
  }

  /** Updates of different fields commute, and a later update of the same
      field wins. */
  lemma UpdatesCommute(c: GuidConfiguration, p: string, i: string, s1: bool, s2: bool)
    ensures WithGuidIndex(WithGuidProperty(c, p), i) == WithGuidProperty(WithGuidIndex(c, i), p)
    ensures WithStripHyphensProperty(WithStripHyphensProperty(c, s1), s2) == WithStripHyphensProperty(c, s2)
  {
  }
}
