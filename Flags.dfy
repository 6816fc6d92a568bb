/**
 * Feature-flag evaluation with its local fallback: the mock flag table
 * (app.js:35-95), the mock client's `variation` (app.js:118-150) and
 * `getMockOrRealFlag` (app.js:564-595).
 *
 * The flag service itself is opaque: a live client is a function that either
 * answers or throws (`None`).
 */
module Flags {
  import opened Wrappers
  import opened PathPolicy

  /** A flag value: a policy object for `config-path`, a boolean or a string otherwise. */
  datatype FlagValue = PolicyValue(policy: PathPolicy) | BoolValue(b: bool) | StringValue(s: string)

  /** JavaScript truthiness: objects are truthy, `false` and `""` are not. */
  predicate Truthy(v: FlagValue) {
    match v
    case PolicyValue(_) => true
    case BoolValue(b) => b
    case StringValue(s) => s != ""
  }

  /** The evaluation context sent to the flag service (app.js:191-197). */
  datatype Context = Context(kind: string, key: string, domain: string, buCode: string, ppcCode: string)

  /** A flag client: the live service, or the mock that `initLDClient` returns when creating the client throws. */
  datatype Client = Live(variation: (string, Context, FlagValue) -> Option<FlagValue>) | MockClient

  const ConfigPathFlag := "config-path"

  const Domain1Policy := PathPolicy(
    Some("dynamic"), None,
    Some("${domain}/config"),
    Some(Domain1EnvironmentTemplate),
    Some("${environment}/${domain}/bu${buCode}/config"),
    Some("${environment}/${domain}/bu${buCode}/ppccode${ppcCode}/config"),
    Some("Dynamic configuration path based on context variables"), Some(1), Some("dynamic"))

  const Domain2Policy := PathPolicy(
    Some("static"), Some("common/default/config1"), None, None, None, None,
    Some("Static path to default configuration file"), Some(1), Some("static"))

  const DefaultPolicy := PathPolicy(
    Some("static"), Some("common/default/config1"), None, None, None, None,
    Some("Static path to default configuration file"), Some(2), Some("static"))

  /** The mock flag table, keyed by flag and then by domain name or "default". */
  const MockFlags: map<string, map<string, FlagValue>> := map[
    ConfigPathFlag := map[
      "domain1" := PolicyValue(Domain1Policy),
      "domain2" := PolicyValue(Domain2Policy),
      "default" := PolicyValue(DefaultPolicy)],
    "feature-enabled" := map[
      "domain1" := BoolValue(true),
      "domain2" := BoolValue(false),
      "default" := BoolValue(false)],
    "theme-variant" := map[
      "domain1" := StringValue("modern"),
      "domain2" := StringValue("classic"),
      "default" := StringValue("standard")],
    "api-version" := map[
      "domain1" := StringValue("v2"),
      "domain2" := StringValue("v1"),
      "default" := StringValue("v1")],
    "logging-level" := map[
      "domain1" := StringValue("debug"),
      "domain2" := StringValue("info"),
      "default" := StringValue("error")]
  ]

  /** `mockFlags[flagKey]?.[key]`. */
  function MockEntry(flagKey: string, key: string): Option<FlagValue> {
    if flagKey in MockFlags && key in MockFlags[flagKey] then Some(MockFlags[flagKey][key]) else None
  }

  /** `mockFlags[flagKey]?.[domainName] || mockFlags[flagKey]?.default || defaultValue`. */
  function FallbackChain(flagKey: string, domainName: string, defaultValue: FlagValue): FlagValue {
    var entry := MockEntry(flagKey, domainName);
    var fallback := MockEntry(flagKey, "default");
    if entry.Some? && Truthy(entry.value) then entry.value
    else if fallback.Some? && Truthy(fallback.value) then fallback.value
    else defaultValue
  }

  /** The mock client's `variation` (app.js:119-150). */
  function MockVariation(flagKey: string, context: Context, defaultValue: FlagValue): FlagValue {
    var domainName := if context.domain != "" then context.domain else "default";
    if flagKey == ConfigPathFlag then
      var domainConfig := MockEntry(flagKey, domainName);
      if domainConfig.Some? && Truthy(domainConfig.value) then domainConfig.value
      else
        var defaultConfig := MockEntry(flagKey, "default");
        if defaultConfig.Some? && Truthy(defaultConfig.value) then defaultConfig.value else defaultValue
    else
      FallbackChain(flagKey, domainName, defaultValue)
  }

  /** `client.variation(flagKey, context, defaultValue)`; `None` when it throws. */
  function Variation(client: Client, flagKey: string, context: Context, defaultValue: FlagValue): Option<FlagValue> {
    match client
    case Live(variation) => variation(flagKey, context, defaultValue)
    case MockClient => Some(MockVariation(flagKey, context, defaultValue))
  }

  /** The per-flag default of `getMockOrRealFlag` (app.js:567-580). */
  function FlagDefault(flagKey: string): FlagValue {
    if flagKey == "theme-variant" then StringValue("standard")
    else if flagKey == "api-version" then StringValue("v1")
    else if flagKey == "logging-level" then StringValue("error")
    else BoolValue(false)
  }

  /** `getMockOrRealFlag`: the client's answer, or the local fallback chain when it throws. */
  function GetMockOrRealFlag(client: Client, flagKey: string, context: Context, domainName: string): (v: FlagValue)
    ensures Variation(client, flagKey, context, FlagDefault(flagKey)).Some? ==>
              v == Variation(client, flagKey, context, FlagDefault(flagKey)).value
    ensures Variation(client, flagKey, context, FlagDefault(flagKey)).None? ==>
              v == FallbackChain(flagKey, domainName, FlagDefault(flagKey))
  {
    match Variation(client, flagKey, context, FlagDefault(flagKey))
    case Some(v) => v
    case None => FallbackChain(flagKey, domainName, FlagDefault(flagKey))
  }

  /** Live client that throws on every call: the flag service is unreachable. */
  function Unreachable(): Client {
    Live((flagKey: string, context: Context, defaultValue: FlagValue) => None)
  }

  /**
   * The fallback is the first truthy value among the domain's entry, the
   * `default` entry and the caller's default.
   */
  lemma FallbackChainPrecedence(flagKey: string, domainName: string, defaultValue: FlagValue)
    ensures var v := FallbackChain(flagKey, domainName, defaultValue);
            && (MockEntry(flagKey, domainName).Some? && Truthy(MockEntry(flagKey, domainName).value) ==>
                  v == MockEntry(flagKey, domainName).value)
            && (!(MockEntry(flagKey, domainName).Some? && Truthy(MockEntry(flagKey, domainName).value)) &&
                MockEntry(flagKey, "default").Some? && Truthy(MockEntry(flagKey, "default").value) ==>
                  v == MockEntry(flagKey, "default").value)
            && (Truthy(v) || v == defaultValue)
            && (v == defaultValue || Some(v) == MockEntry(flagKey, domainName) || Some(v) == MockEntry(flagKey, "default"))
  {
  }

  /** What the fallback table yields for each scalar flag, for every domain name. */
  lemma ScalarFallbackValues(domainName: string)
    ensures FallbackChain("feature-enabled", domainName, FlagDefault("feature-enabled"))
              == BoolValue(domainName == "domain1")
    ensures FallbackChain("theme-variant", domainName, FlagDefault("theme-variant"))
              == StringValue(if domainName == "domain1" then "modern"
                             else if domainName == "domain2" then "classic" else "standard")
    ensures FallbackChain("api-version", domainName, FlagDefault("api-version"))
              == StringValue(if domainName == "domain1" then "v2" else "v1")
    ensures FallbackChain("logging-level", domainName, FlagDefault("logging-level"))
              == StringValue(if domainName == "domain1" then "debug"
                             else if domainName == "domain2" then "info" else "error")
  {
  }

  /** A flag the table does not know falls back to the caller's default. */
  lemma UnknownFlagYieldsDefault(flagKey: string, domainName: string, defaultValue: FlagValue)
    requires flagKey !in MockFlags
    ensures FallbackChain(flagKey, domainName, defaultValue) == defaultValue
  {
  }

  /**
   * The two failure modes agree: a mock client (creating the client threw) and a
   * live client whose `variation` throws yield the same value for every flag.
   */
  lemma MockClientAgreesWithFallback(flagKey: string, context: Context, domainName: string)
    requires context.domain == domainName
    ensures GetMockOrRealFlag(MockClient, flagKey, context, domainName)
         == GetMockOrRealFlag(Unreachable(), flagKey, context, domainName)
  {
    var dv := FlagDefault(flagKey);
    assert "" !in MockFlags[ConfigPathFlag];
    if flagKey in MockFlags {
      assert "" !in MockFlags[flagKey];
    }
  }

  /** For `config-path` the mock client answers the domain's policy, else the default policy. */
  lemma MockPolicyLookup(context: Context, defaultValue: FlagValue)
    ensures MockVariation(ConfigPathFlag, context, defaultValue)
         == PolicyValue(if context.domain == "domain1" then Domain1Policy
                        else if context.domain == "domain2" then Domain2Policy
                        else DefaultPolicy)
  {
  }
}
