/**
 * `loadConfigs` (app.js:409-525): locate the common layer and the environment
 * layer by probing which files exist, read both, merge them and record where
 * they came from.
 *
 * The file system is a map from path to document: a path is present when the
 * file exists (`fs.access` succeeds), and its value is `None` when the file's
 * text is not valid JSON.
 */
module ConfigLoader {
  import opened Wrappers
  import opened Json

  // ---------------------------------------------------------------- file names

  const CommonDefaultPath := "public/configs/common/default/config1.json"

  function EnvDefaultPath(environment: string): string {
    "public/configs/" + environment + "/default/config" + EnvDefaultNumber(environment) + ".json"
  }

  function StaticCommonPath(staticPath: string): string {
    "public/configs/" + staticPath + ".json"
  }

  function DomainCommonPath(domainName: string): string {
    "public/configs/common/" + domainName + "/config" + (if domainName == "domain1" then "2" else "6") + ".json"
  }

  function BuCommonPath(domainName: string, buCode: string): string {
    "public/configs/common/" + domainName + "/bu" + buCode + "/config"
      + (if domainName == "domain1" && buCode == "1" then "3"
         else if domainName == "domain1" && buCode == "2" then "5"
         else if domainName == "domain2" && buCode == "3" then "7"
         else "")
      + ".json"
  }

  function PpcCommonPath(domainName: string, buCode: string, ppcCode: string): string {
    "public/configs/common/" + domainName + "/bu" + buCode + "/ppccode" + ppcCode + "/config"
      + (if domainName == "domain1" && buCode == "1" && ppcCode == "1" then "4" else "")
      + ".json"
  }

  function DomainEnvPath(environment: string, domainName: string): string {
    "public/configs/" + environment + "/" + domainName + "/config" + DomainEnvNumber(environment, domainName) + ".json"
  }

  // ------------------------------------------------------ which layer is used

  /** The candidates for the common layer. */
  datatype CommonLayer = StaticFile | DefaultFile | DomainFile | BuFile | PpcFile

  /** A static path is used when it is truthy: present and non-empty. */
  predicate StaticOverride(staticPath: Option<string>) {
    staticPath.Some? && staticPath.value != ""
  }

  /**
   * A probed candidate qualifies when its code is present, its file exists and
   * every less specific candidate qualifies too: each probe is nested in the
   * success of the one before.
   */
  predicate Qualifies(layer: CommonLayer, domainName: string, buCode: string, ppcCode: string, existing: set<string>)
    decreases Rank(layer)
  {
    match layer
    case StaticFile => false
    case DefaultFile => true
    case DomainFile => domainName != "" && DomainCommonPath(domainName) in existing
    case BuFile =>
      Qualifies(DomainFile, domainName, buCode, ppcCode, existing)
        && buCode != "" && BuCommonPath(domainName, buCode) in existing
    case PpcFile =>
      Qualifies(BuFile, domainName, buCode, ppcCode, existing)
        && ppcCode != "" && PpcCommonPath(domainName, buCode, ppcCode) in existing
  }

  /** Specificity of the probed candidates. */
  function Rank(layer: CommonLayer): nat {
    match layer
    case StaticFile => 0
    case DefaultFile => 0
    case DomainFile => 1
    case BuFile => 2
    case PpcFile => 3
  }

  /** The common layer: the static file when given, else the most specific qualifying candidate. */
  function ChooseCommon(staticPath: Option<string>, domainName: string, buCode: string, ppcCode: string, existing: set<string>)
    : CommonLayer
  {
    if StaticOverride(staticPath) then StaticFile
    else if Qualifies(PpcFile, domainName, buCode, ppcCode, existing) then PpcFile
    else if Qualifies(BuFile, domainName, buCode, ppcCode, existing) then BuFile
    else if Qualifies(DomainFile, domainName, buCode, ppcCode, existing) then DomainFile
    else DefaultFile
  }

  function CommonPathOf(layer: CommonLayer, staticPath: Option<string>, domainName: string, buCode: string, ppcCode: string)
    : string
    requires layer == StaticFile ==> staticPath.Some?
  {
    match layer
    case StaticFile => StaticCommonPath(staticPath.value)
    case DefaultFile => CommonDefaultPath
    case DomainFile => DomainCommonPath(domainName)
    case BuFile => BuCommonPath(domainName, buCode)
    case PpcFile => PpcCommonPath(domainName, buCode, ppcCode)
  }

  function CommonLayerPath(staticPath: Option<string>, domainName: string, buCode: string, ppcCode: string, existing: set<string>)
    : string
  {
    CommonPathOf(ChooseCommon(staticPath, domainName, buCode, ppcCode, existing), staticPath, domainName, buCode, ppcCode)
  }

  /** The environment layer: the domain's own file when it is probed and exists, else the environment default. */
  function EnvLayerPath(staticPath: Option<string>, environment: string, domainName: string, existing: set<string>): string {
    if !StaticOverride(staticPath) && domainName != "" && DomainEnvPath(environment, domainName) in existing
    then DomainEnvPath(environment, domainName)
    else EnvDefaultPath(environment)
  }

  // ---------------------------------------------------------------- loading

  datatype Layer = Layer(source: string, data: Json)
  datatype Configs = Configs(common: Layer, environment: Layer, merged: Json)

  /** Why `loadConfigs` throws: `fs.readFile` fails, or `JSON.parse` does. */
  datatype LoadError = FileMissing(path: string) | ParseFailed(path: string)

  /** `JSON.parse(await fs.readFile(path, "utf8"))`. */
  function ReadJson(files: map<string, Option<Json>>, path: string): Result<Json, LoadError> {
    if path !in files then Err(FileMissing(path))
    else match files[path]
      case None => Err(ParseFailed(path))
      case Some(document) => Ok(document)
  }

  /** `merged._sources = { common, environment }`: provenance is added and nothing else changes. */
  function WithSources(merged: Json, commonPath: string, envPath: string): (r: Json)
    requires merged.Obj?
    ensures r.Obj? && r.fields.Keys == merged.fields.Keys + {"_sources"}
    ensures r.fields["_sources"] == Obj(map["common" := Str(commonPath), "environment" := Str(envPath)])
    ensures forall key :: key in merged.fields && key != "_sources" ==> r.fields[key] == merged.fields[key]
  {
    Obj(merged.fields["_sources" := Obj(map["common" := Str(commonPath), "environment" := Str(envPath)])])
  }

  /** The whole of `loadConfigs`, in the source's order of probes and reads. */
  method LoadConfigs(environment: string, domainName: string, buCode: string, ppcCode: string,
                     staticPath: Option<string>, files: map<string, Option<Json>>)
    returns (r: Result<Configs, LoadError>)
    ensures var commonPath := CommonLayerPath(staticPath, domainName, buCode, ppcCode, files.Keys);
            var envPath := EnvLayerPath(staticPath, environment, domainName, files.Keys);
            var common := ReadJson(files, commonPath);
            var env := ReadJson(files, envPath);
            if common.Err? then r == Err(common.error)
            else if env.Err? then r == Err(env.error)
            else r == Ok(Configs(Layer(commonPath, common.value), Layer(envPath, env.value),
                                 WithSources(DeepMerge(common.value, env.value), commonPath, envPath)))
  {
    var commonConfigPath := CommonDefaultPath;
    var envConfigPath := EnvDefaultPath(environment);

    if StaticOverride(staticPath) {
      commonConfigPath := StaticCommonPath(staticPath.value);
    } else if domainName != "" {
      var domainCommonPath := DomainCommonPath(domainName);
      if domainCommonPath in files {
        commonConfigPath := domainCommonPath;
        if buCode != "" {
          var buCommonPath := BuCommonPath(domainName, buCode);
          if buCommonPath in files {
            commonConfigPath := buCommonPath;
            if ppcCode != "" {
              var ppcCommonPath := PpcCommonPath(domainName, buCode, ppcCode);
              if ppcCommonPath in files {
                commonConfigPath := ppcCommonPath;
              }
            }
          }
        }
      }
      var domainEnvPath := DomainEnvPath(environment, domainName);
      if domainEnvPath in files {
        envConfigPath := domainEnvPath;
      }
    }

    var commonConfigData := ReadJson(files, commonConfigPath);
    if commonConfigData.Err? {
      return Err(commonConfigData.error);
    }
    var envConfigData := ReadJson(files, envConfigPath);
    if envConfigData.Err? {
      return Err(envConfigData.error);
    }
    var mergedConfig := DeepMergeLoop(commonConfigData.value, envConfigData.value);
    mergedConfig := WithSources(mergedConfig, commonConfigPath, envConfigPath);
    r := Ok(Configs(Layer(commonConfigPath, commonConfigData.value),
                    Layer(envConfigPath, envConfigData.value),
                    mergedConfig));
  }

  // ---------------------------------------------------------------- properties

  /**
   * Without a static path the common layer is the most specific candidate that
   * qualifies: it qualifies, and no more specific one does.
   */
  lemma CommonIsMostSpecific(staticPath: Option<string>, domainName: string, buCode: string, ppcCode: string, existing: set<string>)
    requires !StaticOverride(staticPath)
    ensures var chosen := ChooseCommon(staticPath, domainName, buCode, ppcCode, existing);
            && chosen != StaticFile
            && Qualifies(chosen, domainName, buCode, ppcCode, existing)
            && forall layer :: Rank(layer) > Rank(chosen) ==> !Qualifies(layer, domainName, buCode, ppcCode, existing)
  {
  }

  /**
   * The probed file that is chosen exists, and so does every less specific
   * probed file; a unit or sub-unit file is only chosen when its code is given.
   */
  lemma ChosenCommonExists(staticPath: Option<string>, domainName: string, buCode: string, ppcCode: string, existing: set<string>)
    ensures var chosen := ChooseCommon(staticPath, domainName, buCode, ppcCode, existing);
            && (chosen == DefaultFile || chosen == StaticFile ||
                CommonLayerPath(staticPath, domainName, buCode, ppcCode, existing) in existing)
            && (Rank(chosen) >= 1 ==> DomainCommonPath(domainName) in existing)
            && (Rank(chosen) >= 2 ==> buCode != "" && BuCommonPath(domainName, buCode) in existing)
            && (Rank(chosen) == 3 ==> ppcCode != "" && PpcCommonPath(domainName, buCode, ppcCode) in existing)
  {
  }

  /** A static path decides the common layer and leaves the environment layer at its default, whatever exists. */
  lemma StaticPathSkipsProbing(staticPath: Option<string>, environment: string, domainName: string, buCode: string, ppcCode: string,
                               existing: set<string>, existing': set<string>)
    requires StaticOverride(staticPath)
    ensures CommonLayerPath(staticPath, domainName, buCode, ppcCode, existing)
         == CommonLayerPath(staticPath, domainName, buCode, ppcCode, existing')
         == StaticCommonPath(staticPath.value)
    ensures EnvLayerPath(staticPath, environment, domainName, existing)
         == EnvLayerPath(staticPath, environment, domainName, existing')
         == EnvDefaultPath(environment)
  {
  }

  /** The number in the name of a domain's environment file (empty when the table has none). */
  function DomainEnvNumber(environment: string, domainName: string): string {
    if environment == "dev" && domainName == "domain1" then "9"
    else if environment == "dev" && domainName == "domain2" then "10"
    else if environment == "test" && domainName == "domain1" then "12"
    else if environment == "test" && domainName == "domain2" then "13"
    else if environment == "prod" && domainName == "domain1" then "15"
    else if environment == "prod" && domainName == "domain2" then "16"
    else ""
  }

  /** The number in the name of an environment's default file. */
  function EnvDefaultNumber(environment: string): string {
    if environment == "dev" then "8" else if environment == "test" then "11" else "14"
  }

  /** The character just before ".json" tells the two environment files apart. */
  lemma DomainEnvPathIsNotDefault(environment: string, domainName: string)
    ensures DomainEnvPath(environment, domainName) != EnvDefaultPath(environment)
  {
    var n1 := DomainEnvNumber(environment, domainName);
    var n2 := EnvDefaultNumber(environment);
    var d1 := "config" + n1 + ".json";
    var d2 := "config" + n2 + ".json";
    var p1 := "public/configs/" + environment + "/" + domainName + "/";
    var p2 := "public/configs/" + environment + "/default/";
    assert DomainEnvPath(environment, domainName) == p1 + d1;
    assert EnvDefaultPath(environment) == p2 + d2;
    assert d1[|d1| - 6] != d2[|d2| - 6];
    assert (p1 + d1)[|p1 + d1| - 6] == d1[|d1| - 6];
    assert (p2 + d2)[|p2 + d2| - 6] == d2[|d2| - 6];
  }

  /** Without a static path, the environment layer is the domain's file exactly when that file exists. */
  lemma EnvLayerChoice(staticPath: Option<string>, environment: string, domainName: string, existing: set<string>)
    requires !StaticOverride(staticPath) && domainName != ""
    ensures EnvLayerPath(staticPath, environment, domainName, existing) == DomainEnvPath(environment, domainName)
        <==> DomainEnvPath(environment, domainName) in existing
    ensures EnvLayerPath(staticPath, environment, domainName, existing) == EnvDefaultPath(environment)
        <==> DomainEnvPath(environment, domainName) !in existing
  {
    DomainEnvPathIsNotDefault(environment, domainName);
  }

  /**
   * Without a static path, when the domain file exists and the unit file does
   * not, the common layer is the domain file, whatever the sub-unit code and
   * whether or not the sub-unit file exists.
   */
  lemma MissingUnitFileKeepsDomainFile(domainName: string, buCode: string, ppcCode: string, existing: set<string>)
    requires domainName != "" && buCode != ""
    requires DomainCommonPath(domainName) in existing
    requires BuCommonPath(domainName, buCode) !in existing
    ensures CommonLayerPath(None, domainName, buCode, ppcCode, existing) == DomainCommonPath(domainName)
  {
  }

  /**
   * The unit file for (domain1, unit 1) is missing: the common layer falls back
   * to the domain's file `config2`, whether or not the sub-unit file exists.
   */
  lemma FallsBackToDomainFile(existing: set<string>)
    requires "public/configs/common/domain1/config2.json" in existing
    requires "public/configs/common/domain1/bu1/config3.json" !in existing
    ensures CommonLayerPath(None, "domain1", "1", "1", existing) == "public/configs/common/domain1/config2.json"
  {
    assert DomainCommonPath("domain1") == "public/configs/common/domain1/config2.json";
    assert BuCommonPath("domain1", "1") == "public/configs/common/domain1/bu1/config3.json";
  }

  /**
   * The probes run from general to specific, so an existing sub-unit file is
   * skipped when the unit file between it and the domain file is missing.
   */
  lemma ExistingSubUnitFileSkipped()
    ensures var existing := {DomainCommonPath("domain1"), PpcCommonPath("domain1", "1", "1")};
            && PpcCommonPath("domain1", "1", "1") in existing
            && CommonLayerPath(None, "domain1", "1", "1", existing) == DomainCommonPath("domain1")
  {
    var existing := {DomainCommonPath("domain1"), PpcCommonPath("domain1", "1", "1")};
    assert |BuCommonPath("domain1", "1")| == 46;
    assert |DomainCommonPath("domain1")| == 42;
    assert |PpcCommonPath("domain1", "1", "1")| == 55;
    assert BuCommonPath("domain1", "1") !in existing;
  }
}
