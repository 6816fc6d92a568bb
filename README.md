# Configuration resolution of app-config-management, in Dafny

The application serves a per-tenant configuration. A request names a host name
(`www.domain1.com`), an environment (`dev`, `test`, `prod`) and optionally a
business-unit code and a sub-unit (PPC) code. The server then:

1. extracts the tenant's domain name from the host name (`domain1`);
2. asks the feature-flag service for the `config-path` policy. When creating the
   LaunchDarkly client throws, `initLDClient` returns a mock client that answers
   from a local flag table (app.js:114-152). The policy
   is either *static* (a fixed path) or *dynamic* (a set of path templates with
   `${domain}`, `${environment}`, `${buCode}` and `${ppcCode}` placeholders);
3. resolves the policy into a configuration path. The template is picked by the
   codes present, then the placeholders are substituted. When resolution throws,
   the local policy table is used instead;
4. locates two layers of configuration files:
   - a *common* layer, probed from general to specific: domain, then business
     unit, then sub-unit, each probe only when the previous file exists;
   - an *environment* layer;
5. reads both layers, deep-merges the environment layer over the common layer,
   and records in `_sources` which files were used.

The modules follow that pipeline:

| module | file | what it holds |
|---|---|---|
| `Wrappers` | Wrappers.dfy | `Option` and `Result` |
| `Text` | Text.dfy | JavaScript's `split` on one character, and global literal replacement, with their round trips |
| `DomainName` | DomainName.dfy | step 1 |
| `PathPolicy` | PathPolicy.dfy | the policy record, template selection, interpolation, `ResolvePath` |
| `Flags` | Flags.dfy | the mock flag table, the mock client's `variation`, `getMockOrRealFlag` |
| `Json` | Json.dfy | parsed documents, `isObject`, `deepMerge` (as a function and as the source's loop) |
| `ConfigLoader` | ConfigLoader.dfy | `loadConfigs`: file-name tables, layer choice, reading, merging, `_sources` |
| `GetConfig` | GetConfig.dfy | the `/get-config` handler, with both path-resolution call sites |

Outside effects are parameters:
- The file system is a map `files` from path to parsed document. A path is a key
  exactly when the file exists. Its value is `None` when the text is not valid JSON.
- The flag service is a `Client`. It is either `MockClient` or a `Live` function
  that answers `Some(value)`, or `None` when the call throws.
- JavaScript `undefined` is `None`. A thrown error is an `Err` result.

`deepMerge` mutates a fresh local copy in a `forEach` loop, and `loadConfigs`
reassigns its two path variables through nested probes. Both are methods here:
- `Json.DeepMergeLoop` is proved equal to the recursive specification `Json.DeepMerge`;
- `ConfigLoader.LoadConfigs` is proved equal to the declarative layer choice
  (`CommonLayerPath`, `EnvLayerPath`).

Values are immutable in Dafny, so neither merge argument can be modified.

## Model

| member | source | states |
|---|---|---|
| Text.Split | app.js:181 | `split(".")` yields at least one segment, and no segment contains the separator |
| Text.JoinSplit | app.js:181 | joining the segments of a split with the separator gives back the input |
| Text.SplitJoin | app.js:181 | splitting a join of separator-free segments gives back the segments |
| Text.SplitWithoutSeparator | app.js:181 | an input without the separator splits into itself alone |
| Text.SplitAfterPrefix | app.js:181 | a separator-free prefix followed by the separator becomes the first segment |
| Text.SplitOnDecomposes | app.js:240-244 | cutting a string at every occurrence of a placeholder gives pieces free of it whose join is the string |
| Text.JoinSplitOn | app.js:240-244 | the pieces of a string cut at a pattern, rejoined with the pattern, give the string back |
| Text.SplitOnPiecesFree | app.js:240-244 | no piece of a cut contains the pattern |
| Text.ReplaceAllIsSplitJoin | app.js:240-244 | a global replacement is cutting at every occurrence and joining with the replacement |
| Text.ReplaceAllAbsent | app.js:240-244 | replacing a pattern that does not occur leaves the string unchanged |
| Text.ReplaceAllFront | app.js:240-244 | a leading occurrence is replaced and the scan resumes after it |
| Text.ReplaceAllKeepsPlainPrefix | app.js:240-244 | text without the pattern's first character is kept as is |
| DomainName.ExtractDomainName | app.js:181 | the result is the input, or a non-empty name without a dot |
| DomainName.DomainNameOfSegments | app.js:181 | for dot-separated segments, the result is the second segment when present and non-empty, else the whole input |
| DomainName.DomainNameWithoutDot | app.js:181 | a name without a dot is kept whole |
| DomainName.DomainNameExample | app.js:181 | `www.domain1.com` yields `domain1` |
| PathPolicy.ResolvePath | app.js:221-248 | a static policy yields its `staticPath`; a dynamic one throws exactly when its selected template is undefined, else yields the interpolated template |
| PathPolicy.StaticPolicyIgnoresContext | app.js:222-225 | a static policy's path is the same for every domain, environment and code |
| PathPolicy.TemplatePrecedence | app.js:229-237 | both codes choose the sub-unit template, a unit code alone the unit template, else the environment template, else the domain template |
| PathPolicy.SubUnitIgnoredWithoutUnit | app.js:229-237 | a sub-unit code without a unit code selects the same template as no sub-unit code |
| PathPolicy.ChosenLevelIsMostSpecific | app.js:229-237 | the chosen level is the most specific one whose codes are present; with an environment, which the handler requires, the domain-only template is never chosen |
| PathPolicy.InterpolateWithoutPlaceholders | app.js:240-244 | a template without placeholders is returned unchanged |
| PathPolicy.InterpolateReplacesEveryOccurrence | app.js:240-244 | each of the four steps, in order domain, environment, unit, sub-unit, cuts its input at every occurrence of its placeholder and joins the pieces with the value |
| PathPolicy.ReplaceAllSkipsOtherToken | app.js:240-244 | replacing one placeholder steps over a different placeholder whole |
| PathPolicy.ReplaceLeadingToken | app.js:240-244 | a leading placeholder is replaced when the rest cannot start another |
| PathPolicy.ReplaceSecondToken | app.js:240-244 | a placeholder after a different leading placeholder is replaced and the rest kept |
| PathPolicy.EnvironmentTemplateDomainStep | app.js:241 | the domain step on domain1's environment template substitutes the domain name and keeps `${environment}` |
| PathPolicy.EnvironmentTemplateEnvironmentStep | app.js:242 | the environment step then substitutes the environment |
| PathPolicy.EnvironmentTemplateCodeSteps | app.js:243-244 | the unit and sub-unit steps leave a path without `$` unchanged |
| PathPolicy.EnvironmentTemplateExample | app.js:240-244 | domain1's environment template resolves to `<environment>/<domain name>/config` for every domain name and environment without `$`, whatever the codes |
| PathPolicy.SubUnitCodeStillSubstituted | app.js:243-244 | a sub-unit code is substituted even without a unit code |
| Flags.GetMockOrRealFlag | app.js:564-595 | the client's answer unchanged when `variation` answers; the local fallback chain with the flag's default when it throws |
| Flags.FallbackChainPrecedence | app.js:590-594 | the fallback is the truthy domain entry, else the truthy `default` entry, else the caller's default, and it is one of those three |
| Flags.ScalarFallbackValues | app.js:567-594 | the value each scalar flag falls back to, for every domain name |
| Flags.UnknownFlagYieldsDefault | app.js:590-594 | a flag absent from the table falls back to the caller's default |
| Flags.MockClientAgreesWithFallback | app.js:118-150 | a mock client and a live client that always throws give every flag the same value |
| Flags.MockPolicyLookup | app.js:126-139 | the mock client answers `config-path` with the domain's policy, else the default policy |
| Json.DeepMergeLoop | app.js:538-556 | the source's copy-then-update loop computes `DeepMerge` |
| Json.DeepMergeObjects | app.js:541-552 | on two objects the keys unite, target-only keys keep their value, a non-object or new source value replaces, and object meets object recursively |
| Json.DeepMergeOfNonObjects | app.js:539-555 | unless both are objects, the result is a spread copy of the target and the source is ignored: `{}` for null, booleans and numbers, the target itself for an object, and for an array or a string exactly the keys "0" to "n-1", key "i" holding element or character `i` |
| Json.IndexMapKeys | app.js:539 | the keys of a spread array are exactly its printed indices |
| Json.IndexMapAt | app.js:539 | element `i` of a spread array is under the key "i" |
| Text.NatToStringInjective | app.js:539 | two different indices never print to the same key |
| Json.DeepMergeIdempotent | app.js:538-561 | merging an object with itself gives it back |
| Json.DeepMergeEmpty | app.js:538-556 | the empty object is neutral on either side |
| Json.OverridesItself | app.js:543-550 | every leaf of an object is found in that object |
| Json.DeepMergeSourceWins | app.js:543-550 | when no source object meets a target non-object, every leaf of the source survives the merge at every depth |
| Json.MergeScalarConflictExample | app.js:549-551 | a scalar conflict is won by the source |
| Json.MergeArrayReplacedExample | app.js:549-551 | arrays are replaced, not concatenated |
| Json.MergeNestedExample | app.js:546-548 | nested objects are merged |
| Json.MergeObjectOverScalarExample | app.js:539-547 | an object over a number becomes the empty object (`{a:1}` with `{a:{x:1}}` gives `{a:{}}`) |
| ConfigLoader.WithSources | app.js:511-514 | `_sources` names the two files and no other key changes |
| ConfigLoader.LoadConfigs | app.js:410-525 | the result is the chosen common and environment files, read, merged and tagged, or the first read or parse failure |
| ConfigLoader.CommonIsMostSpecific | app.js:419-465 | without a static path, the common layer is the most specific candidate whose probes all succeed |
| ConfigLoader.ChosenCommonExists | app.js:431-465 | a probed common file is chosen only if it and every less specific probed file exist and its codes are given |
| ConfigLoader.StaticPathSkipsProbing | app.js:419-429 | a static path decides the common file and leaves the environment default, whatever exists |
| ConfigLoader.DomainEnvPathIsNotDefault | app.js:468-482 | a domain's environment file name never equals the environment default |
| ConfigLoader.EnvLayerChoice | app.js:467-486 | without a static path the environment file is the domain's exactly when it exists, else the default |
| ConfigLoader.MissingUnitFileKeepsDomainFile | app.js:432-450 | for any domain name and unit code, an existing domain file and a missing unit file give the domain file, whatever the sub-unit code and whether or not the sub-unit file exists |
| ConfigLoader.FallsBackToDomainFile | app.js:432-450 | for domain1 with unit code "1" and sub-unit code "1", a missing unit file keeps the domain file `config2`, whether or not the sub-unit file exists |
| ConfigLoader.ExistingSubUnitFileSkipped | app.js:435-461 | for domain1 with unit code "1" and sub-unit code "1": with the domain file and the sub-unit file present but the unit file missing, the domain file is chosen and the sub-unit file skipped |
| GetConfig.FallbackPolicy | app.js:255-262 | the local policy is domain1's, domain2's, or the default policy |
| GetConfig.ResolveConfigPath | app.js:206-302 | a thrown `variation` fails; a static policy yields its path as both the path and the static argument; only a static policy passes a static argument |
| GetConfig.HandleGetConfig | app.js:162-405 | missing fields are refused; a resolution failure is returned as is; otherwise the chosen common file is read, then the environment file, and the first failure is returned, else the response carries the resolved path, both layers as read from `files`, their merge tagged with `_sources`, and the context |
| GetConfig.MockClientRequestResolves | app.js:118-139 | with the mock client every valid request resolves a configuration path |
| GetConfig.AnsweredPolicyIsUsed | app.js:206-248 | a policy that resolves is used as resolved |
| GetConfig.FallbackSiteResolvesFallbackPolicy | app.js:249-291 | a policy that throws is replaced by the local policy, resolved by the same function |
| GetConfig.FallbackPolicyAlwaysResolves | app.js:255-291 | the local policy never throws |
| GetConfig.Domain1Scenario | app.js:206-248 | with the mock client, domain1 in dev without codes resolves to the dynamic path `dev/domain1/config` |
| GetConfig.Domain2Scenario | app.js:206-309 | with the mock client, domain name `domain2` in prod uses the static common file and the prod default |
| GetConfig.ThrowingVariationFailsRequest | app.js:249-302 | a `variation` call that throws fails the request |

## Where the code and the documented behaviour differ

The model follows the code in each of these places.

- **Object over a scalar in `deepMerge`.** A source object under a key whose
  target value is not an object is merged into that value, and the merge copies
  only the target. A number, boolean or null target yields `{}`. A string or array
  target yields an index-keyed object. The source object is lost
  (`Json.MergeObjectOverScalarExample`). The documented behaviour is that the
  override wins.
- **Sub-unit code without a unit code.** It does not change the template chosen.
  It is still substituted into any `${ppcCode}` the template holds
  (`PathPolicy.SubUnitCodeStillSubstituted`).
- **A `variation` call that throws.** The handler computes the local fallback
  path, then reads `configPathObj.type` while `configPathObj` is undefined, so the
  request fails with status 500 (`GetConfig.ThrowingVariationFailsRequest`). The
  documented behaviour is that the request succeeds with the fallback path. The
  flag helper `getMockOrRealFlag` does fall back as documented.
- **Order of the common-layer probes.** The documented behaviour is that the
  locator chooses the most specific existing file. The code probes from general
  to specific and stops at the first missing file, so an existing sub-unit file
  is skipped when the unit file is missing (`ConfigLoader.ExistingSubUnitFileSkipped`).
- **Domain-only template.** The documented behaviour is that a request without
  codes uses the domain-only template. The code tests the environment before
  falling back to it, and the environment is always present after validation, so
  the environment template is used and the domain-only template never is
  (`PathPolicy.ChosenLevelIsMostSpecific`, `PathPolicy.TemplatePrecedence`).
- **Waiting for the flag client.** The documented behaviour is that the mock
  client is used when the flag service is unavailable. The code falls back only
  when `LaunchDarkly.init` itself throws: the wait for the `ready` event
  (app.js:108) has no failure path, so a client that never becomes ready keeps
  the request waiting. The model takes the client as given and does not model
  this wait.
- **Static paths.** The static path in `loadConfigs` is tested for truthiness, so
  an empty static path does not override (`ConfigLoader.StaticOverride`).

## Left out

- The Express server, routing, body parsing and response encoding are HTTP glue. The handler's result is a `Result` instead of a status code.
- LaunchDarkly initialisation, the `ready` promise, `close`, the SDK key choice and the `ldClients` cache are a foreign asynchronous library with process-wide state. The client is a parameter.
- `fs.access`, `fs.readFile` and `JSON.parse` are input/output and a library parser. They are replaced by the `files` map of parsed documents.
- Logging and the timestamp are side effects and nondeterminism.
- The `runningConfig` block (app.js:316-394) fills presentation defaults and is not part of resolution. Its four `getMockOrRealFlag` calls are modelled by `Flags.GetMockOrRealFlag`.
- `$` patterns in `String.prototype.replace` replacement strings are not interpreted. Substituted values are inserted literally, which is the behaviour for values without `$`.
- The insertion order of object keys is not modelled. Objects are maps.
- `key in target` in `deepMerge` also sees inherited keys such as `toString`. The model assumes documents have no keys shared with `Object.prototype`.
- JSON numbers are integers. Floating point is not modelled.
- Policy fields and flag values are strings, booleans or policy records. A `null` flag value, or a policy field of another type, is not modelled. A boolean or string answered for `config-path` reads as a policy with every field undefined (`GetConfig.AsPolicy`).
- PathPolicy.SubUnitIgnoredWithoutUnit: stated for the template chosen only, because the resolved path can still differ through a `${ppcCode}` placeholder.
- Flags.MockEntry: the table lookups `mockFlags[flagKey]?.[name]` also find members inherited from `Object.prototype` (`constructor`, `toString`, `__proto__`); the model finds only the table's own keys. For such domain names the source answers with a function, whose templates are undefined, and the request fails, while the model uses the default policy. `Flags.MockVariation`, `Flags.FallbackChain`, `Flags.MockPolicyLookup`, `GetConfig.FallbackPolicy`, `GetConfig.FallbackPolicyAlwaysResolves` and `GetConfig.MockClientRequestResolves` hold for domain names that are not such members.
- Json.Spread: a string is spread by Dafny characters (Unicode scalar values), whereas JavaScript spreads UTF-16 code units, so a character outside the Basic Multilingual Plane gives one key here and two in the source.
