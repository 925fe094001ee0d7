/** The GUID module's bootstrapper: read the module's settings from a
    string map and apply each non-blank one to the configuration. */
module GuidBootstrapper {
  import opened Host
  import opened GuidConfig

  const GuidPropertyKey: string := "guidProperty"
  const GuidIndexKey: string := "guidIndex"
  const GuidRelationshipIndexKey: string := "guidRelationshipIndex"
  const StripHyphensKey: string := "stripHyphens"
  const GuidGeneratorClassKey: string := "GuidGeneratorClass"

  /** Java `Character.isWhitespace`: the space, line and paragraph
      separators other than the no-break spaces, and the control
      characters TAB, LF, VT, FF, CR and FS, GS, RS, US. */
  predicate IsWhitespace(c: char)
  {
    c == ' ' || c == '\U{1680}' || ('\U{2000}' <= c <= '\U{200A}' && c != '\U{2007}')
    || c == '\U{205F}' || c == '\U{3000}' || c == '\U{2028}' || c == '\U{2029}'
    || ('\t' <= c <= '\r') || ('\U{1C}' <= c <= '\U{1F}')
  }

  /** `StringUtils.isNotBlank`: present and holding a non-whitespace char. */
  predicate IsNotBlank(s: string)
  {
    exists i :: 0 <= i < |s| && !IsWhitespace(s[i])
  }

  /** The setting under `key` is present and not blank. */
  predicate Applies(config: map<string, string>, key: string)
  {
    key in config && IsNotBlank(config[key])
  }

  function ToLowerAscii(c: char): char
  {
    if 'A' <= c <= 'Z' then (c as int + 32) as char else c
  }

  /** `Boolean.valueOf`: true exactly for "true" in any letter case. */
  predicate ParseBoolean(s: string)
  {
    |s| == 4 && forall i :: 0 <= i < 4 ==> ToLowerAscii(s[i]) == "true"[i]
  }

  lemma ParseBooleanExamples()
    ensures ParseBoolean("true") && ParseBoolean("TRUE") && ParseBoolean("True")
    ensures !ParseBoolean("yes") && !ParseBoolean("false") && !ParseBoolean(" true")
  {
    assert ToLowerAscii("TRUE"[0]) == 't';
    assert ToLowerAscii("True"[1]) == 'r';
  }

  /** `doBootstrapModule`: the configuration the module is built with. Each
      setting that is present and not blank replaces its own field; all
      others, and every field without a setting, keep their values. */
  method DoBootstrapModule(config: map<string, string>, configuration: GuidConfiguration)
    returns (c: GuidConfiguration)
    ensures c.guidProperty == if Applies(config, GuidPropertyKey) then config[GuidPropertyKey] else configuration.guidProperty
    ensures c.guidIndex == if Applies(config, GuidIndexKey) then config[GuidIndexKey] else configuration.guidIndex
    ensures c.guidRelationshipIndex ==
              if Applies(config, GuidRelationshipIndexKey) then config[GuidRelationshipIndexKey]
              else configuration.guidRelationshipIndex
    ensures c.stripHyphens ==
              if Applies(config, StripHyphensKey) then ParseBoolean(config[StripHyphensKey])
              else configuration.stripHyphens
    ensures c.guidGenerator ==
              if Applies(config, GuidGeneratorClassKey) then config[GuidGeneratorClassKey]
              else configuration.guidGenerator
    ensures c.inclusionPolicies == configuration.inclusionPolicies
    ensures c.initializeUntil == configuration.initializeUntil
  {
    c := configuration;
    if GuidPropertyKey in config && IsNotBlank(config[GuidPropertyKey]) {
      c := WithGuidProperty(c, config[GuidPropertyKey]);
    }
    if GuidIndexKey in config && IsNotBlank(config[GuidIndexKey]) {
      c := WithGuidIndex(c, config[GuidIndexKey]);
    }
    if GuidRelationshipIndexKey in config && IsNotBlank(config[GuidRelationshipIndexKey]) {
      c := WithGuidRelationshipIndex(c, config[GuidRelationshipIndexKey]);
    }
    if StripHyphensKey in config && IsNotBlank(config[StripHyphensKey]) {
      var stripHyphens := ParseBoolean(config[StripHyphensKey]);
      c := WithStripHyphensProperty(c, stripHyphens);
    }
    if GuidGeneratorClassKey in config && IsNotBlank(config[GuidGeneratorClassKey]) {
      c := WithGuidGenerator(c, config[GuidGeneratorClassKey]);
    }
  }
}
