/** The UUID module's bootstrapper: read the module's settings from a
    string map and apply each non-empty one to the configuration. */
module UuidBootstrapper {
  import opened Host
  import opened UuidConfig
  import GuidBootstrapper

  const UuidPropertyKey: string := "uuidProperty"
  const UuidIndexKey: string := "uuidIndex"

  /** The setting under `key` is present and not empty (whitespace counts). */
  predicate Applies(config: map<string, string>, key: string)
  {
    key in config && |config[key]| > 0
  }

  /** `doBootstrapModule`: the configuration the module is built with. A
      present, non-empty `uuidProperty` or `uuidIndex` replaces its field;
      no other setting has any effect. */
  method DoBootstrapModule(config: map<string, string>, configuration: UuidConfiguration)
    returns (c: UuidConfiguration)
    ensures c.uuidProperty == if Applies(config, UuidPropertyKey) then config[UuidPropertyKey] else configuration.uuidProperty
    ensures c.uuidIndex == if Applies(config, UuidIndexKey) then config[UuidIndexKey] else configuration.uuidIndex
    ensures c.inclusionPolicies == configuration.inclusionPolicies
  {
    c := configuration;
    if UuidPropertyKey in config && |config[UuidPropertyKey]| > 0 {
      c := WithUuidProperty(c, config[UuidPropertyKey]);
    }
    if UuidIndexKey in config && |config[UuidIndexKey]| > 0 {
      c := WithUuidIndex(c, config[UuidIndexKey]);
    }
  }

  /** The UUID bootstrapper's rule is weaker than the GUID one's: every
      setting the GUID rule applies is applied here too, and a
      whitespace-only value is applied here but not there. */
  lemma WhitespaceOnlyStillApplies(config: map<string, string>, key: string)
    ensures GuidBootstrapper.Applies(config, key) ==> Applies(config, key)
    ensures key in config && config[key] == " " ==> Applies(config, key) && !GuidBootstrapper.Applies(config, key)
  {
  }
}
