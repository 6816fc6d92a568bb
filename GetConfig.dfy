/**
 * The `/get-config` request (app.js:162-313, 396-402): validate the input,
 * extract the domain name, ask the flag client for the `config-path` policy,
 * resolve the configuration path (falling back to the local policy table when
 * resolution throws), then locate, load and merge the configuration layers.
 */
module GetConfig {
  import opened Wrappers
  import opened DomainName
  import opened PathPolicy
  import opened Flags
  import opened Json
  import opened ConfigLoader

  /** The default value passed to `variation` for `config-path` (app.js:209-217). */
  const VariationDefaultPolicy := PathPolicy(
    Some("dynamic"), None,
    Some("default/config"),
    Some("${environment}/default/config"),
    Some("${environment}/default/config"),
    Some("${environment}/default/config"),
    Some("Default dynamic configuration path"), Some(2), None)

  /** The last resort of the local fallback (app.js:256-262). */
  const FallbackLiteralPolicy := PathPolicy(
    Some("dynamic"), None,
    Some("default/config"),
    Some("${environment}/default/config"),
    Some("${environment}/default/config"),
    Some("${environment}/default/config"),
    None, None, None)

  /** A flag answer read as a policy object: the fields of a boolean or a string are all undefined. */
  function AsPolicy(v: FlagValue): PathPolicy {
    match v
    case PolicyValue(p) => p
    case _ => PathPolicy(None, None, None, None, None, None, None, None, None)
  }

  /**
   * The local policy used when resolution throws (app.js:255-262): the
   * domain's entry, else the default entry, else the literal policy.
   */
  function FallbackPolicy(domainName: string): (p: PathPolicy)
    ensures p == if domainName == "domain1" then Domain1Policy
                 else if domainName == "domain2" then Domain2Policy
                 else DefaultPolicy
  {
    var entry := MockEntry(ConfigPathFlag, domainName);
    var fallback := MockEntry(ConfigPathFlag, "default");
    if entry.Some? && entry.value.PolicyValue? then entry.value.policy
    else if fallback.Some? && fallback.value.PolicyValue? then fallback.value.policy
    else FallbackLiteralPolicy
  }

  /** The resolved path, and the static path handed to `loadConfigs` (`null` unless the policy is static). */
  datatype PathChoice = PathChoice(configPath: Option<string>, staticPath: Option<string>)

  datatype RequestError =
    | MissingFields                 // 400: "Domain and environment are required"
    | PolicyUnavailable             // 500: `configPathObj.type` read on an undefined policy (app.js:302)
    | FallbackTemplateUndefined     // 500: the fallback policy lacks the chosen template
    | LoadFailed(cause: LoadError)  // 500: "Failed to load config files"

  /**
   * Steps 5 and 6 of the handler: `outcome` is what `client.variation` returned
   * for `config-path`, or `None` when it threw.
   */
  function ResolveConfigPath(outcome: Option<FlagValue>, domainName: string, environment: string, buCode: string, ppcCode: string)
    : (r: Result<PathChoice, RequestError>)
    ensures outcome.None? ==> r.Err?
    ensures outcome.Some? && AsPolicy(outcome.value).IsStatic() ==>
              r == Ok(PathChoice(AsPolicy(outcome.value).staticPath, AsPolicy(outcome.value).staticPath))
    ensures r.Ok? && r.value.staticPath.Some? ==> outcome.Some? && AsPolicy(outcome.value).IsStatic()
  {
    if outcome.Some? then
      var policy := AsPolicy(outcome.value);
      match ResolvePath(policy, domainName, environment, buCode, ppcCode)
      case Ok(configPath) =>
        Ok(PathChoice(configPath, if policy.IsStatic() then configPath else None))
      case Err(_) =>
        // Only a dynamic policy throws, so `isStaticPath` is false afterwards.
        match ResolvePath(FallbackPolicy(domainName), domainName, environment, buCode, ppcCode)
        case Ok(configPath) => Ok(PathChoice(configPath, None))
        case Err(_) => Err(FallbackTemplateUndefined)
    else
      // The fallback path is computed, then reading the type of the undefined policy throws.
      match ResolvePath(FallbackPolicy(domainName), domainName, environment, buCode, ppcCode)
      case Ok(_) => Err(PolicyUnavailable)
      case Err(_) => Err(FallbackTemplateUndefined)
  }

  datatype Response = Response(configPath: Option<string>, configs: Configs, context: Context)

  /** The handler, from the request body to the response, with the flag client and the files as parameters. */
  method HandleGetConfig(domain: string, environment: string, buCode: string, ppcCode: string,
                         client: Client, files: map<string, Option<Json>>)
    returns (r: Result<Response, RequestError>)
    ensures r == Err(MissingFields) <==> domain == "" || environment == ""
    ensures domain != "" && environment != "" ==>
              var domainName := ExtractDomainName(domain);
              var context := Context("user", domain, domainName, buCode, ppcCode);
              var choice := ResolveConfigPath(Variation(client, ConfigPathFlag, context, PolicyValue(VariationDefaultPolicy)),
                                              domainName, environment, buCode, ppcCode);
              if choice.Err? then r == Err(choice.error)
              else
                var commonPath := CommonLayerPath(choice.value.staticPath, domainName, buCode, ppcCode, files.Keys);
                var envPath := EnvLayerPath(choice.value.staticPath, environment, domainName, files.Keys);
                var common := ReadJson(files, commonPath);
                var env := ReadJson(files, envPath);
                if common.Err? then r == Err(LoadFailed(common.error))
                else if env.Err? then r == Err(LoadFailed(env.error))
                else r == Ok(Response(choice.value.configPath,
                                      Configs(Layer(commonPath, common.value), Layer(envPath, env.value),
                                              WithSources(DeepMerge(common.value, env.value), commonPath, envPath)),
                                      context))
  {
    if domain == "" || environment == "" {
      return Err(MissingFields);
    }
    var domainName := ExtractDomainName(domain);
    var context := Context("user", domain, domainName, buCode, ppcCode);
    var outcome := Variation(client, ConfigPathFlag, context, PolicyValue(VariationDefaultPolicy));
    var choice := ResolveConfigPath(outcome, domainName, environment, buCode, ppcCode);
    if choice.Err? {
      return Err(choice.error);
    }
    var configs := LoadConfigs(environment, domainName, buCode, ppcCode, choice.value.staticPath, files);
    if configs.Err? {
      return Err(LoadFailed(configs.error));
    }
    r := Ok(Response(choice.value.configPath, configs.value, context));
  }

  /**
   * Both call sites compute the same resolution: when the answered policy
   * throws, the path is the fallback policy's path, resolved the same way.
   */
  lemma FallbackSiteResolvesFallbackPolicy(v: FlagValue, domainName: string, environment: string, buCode: string, ppcCode: string)
    requires ResolvePath(AsPolicy(v), domainName, environment, buCode, ppcCode).Err?
    requires ResolvePath(FallbackPolicy(domainName), domainName, environment, buCode, ppcCode).Ok?
    ensures ResolveConfigPath(Some(v), domainName, environment, buCode, ppcCode)
         == Ok(PathChoice(ResolvePath(FallbackPolicy(domainName), domainName, environment, buCode, ppcCode).value, None))
  {
  }

  /** When the answered policy resolves, its path is used as it is. */
  lemma AnsweredPolicyIsUsed(v: FlagValue, domainName: string, environment: string, buCode: string, ppcCode: string)
    requires ResolvePath(AsPolicy(v), domainName, environment, buCode, ppcCode).Ok?
    ensures ResolveConfigPath(Some(v), domainName, environment, buCode, ppcCode).Ok?
    ensures ResolveConfigPath(Some(v), domainName, environment, buCode, ppcCode).value.configPath
         == ResolvePath(AsPolicy(v), domainName, environment, buCode, ppcCode).value
  {
  }

  /** No table policy lacks the template the fallback needs: the local fallback never throws. */
  lemma FallbackPolicyAlwaysResolves(domainName: string, environment: string, buCode: string, ppcCode: string)
    ensures ResolvePath(FallbackPolicy(domainName), domainName, environment, buCode, ppcCode).Ok?
  {
  }

  /**
   * With the mock client, www.domain1.com in "dev" without codes resolves to
   * the dynamic path "dev/domain1/config" and the common layer is probed.
   */
  lemma Domain1Scenario()
    ensures var context := Context("user", "www.domain1.com", "domain1", "", "");
            ResolveConfigPath(Variation(MockClient, ConfigPathFlag, context, PolicyValue(VariationDefaultPolicy)),
                              "domain1", "dev", "", "")
              == Ok(PathChoice(Some("dev/domain1/config"), None))
  {
    var context := Context("user", "www.domain1.com", "domain1", "", "");
    MockPolicyLookup(context, PolicyValue(VariationDefaultPolicy));
    EnvironmentTemplateExample("domain1", "dev", "", "");
    assert "dev" + "/" + "domain1" + "/config" == "dev/domain1/config";
  }

  /**
   * With the mock client, www.domain2.com in "prod" gets the static path
   * "common/default/config1", which becomes the common layer without probing.
   */
  lemma Domain2Scenario(existing: set<string>)
    ensures var context := Context("user", "www.domain2.com", "domain2", "", "");
            var choice := ResolveConfigPath(Variation(MockClient, ConfigPathFlag, context, PolicyValue(VariationDefaultPolicy)),
                                            "domain2", "prod", "", "");
            && choice == Ok(PathChoice(Some("common/default/config1"), Some("common/default/config1")))
            && CommonLayerPath(choice.value.staticPath, "domain2", "", "", existing)
                 == StaticCommonPath("common/default/config1")
            && EnvLayerPath(choice.value.staticPath, "prod", "domain2", existing)
                 == EnvDefaultPath("prod")
  {
    var context := Context("user", "www.domain2.com", "domain2", "", "");
    MockPolicyLookup(context, PolicyValue(VariationDefaultPolicy));
    var staticPath := Some("common/default/config1");
    assert StaticOverride(staticPath);
    StaticPathSkipsProbing(staticPath, "prod", "domain2", "", "", existing, existing);
  }

  /**
   * With the mock client (creating the flag client threw) every
   * valid request resolves a configuration path.
   */
  lemma MockClientRequestResolves(domain: string, environment: string, buCode: string, ppcCode: string)
    requires domain != "" && environment != ""
    ensures var domainName := ExtractDomainName(domain);
            var context := Context("user", domain, domainName, buCode, ppcCode);
            ResolveConfigPath(Variation(MockClient, ConfigPathFlag, context, PolicyValue(VariationDefaultPolicy)),
                              domainName, environment, buCode, ppcCode).Ok?
  {
    var context := Context("user", domain, ExtractDomainName(domain), buCode, ppcCode);
    MockPolicyLookup(context, PolicyValue(VariationDefaultPolicy));
  }

  /**
   * As written, a `variation` call that throws fails the whole request, even
   * though the fallback path was computed: line 302 reads the undefined policy.
   */
  lemma ThrowingVariationFailsRequest(domainName: string, environment: string, buCode: string, ppcCode: string)
    ensures ResolveConfigPath(None, domainName, environment, buCode, ppcCode) == Err(PolicyUnavailable)
  {
    FallbackPolicyAlwaysResolves(domainName, environment, buCode, ppcCode);
  }
}
