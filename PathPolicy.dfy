/**
 * The `config-path` policy and its resolution to a configuration path
 * (app.js:221-248, repeated for the fallback policy at app.js:264-291).
 *
 * A policy is the JSON object the flag service hands back. A field the
 * object does not carry reads as `undefined`, modelled as `None`.
 */
module PathPolicy {
  import opened Wrappers
  import opened Text

  datatype PathPolicy = PathPolicy(
    kind: Option<string>,                     // the `type` field
    staticPath: Option<string>,
    pathTemplate: Option<string>,
    environmentPathTemplate: Option<string>,
    buPathTemplate: Option<string>,
    ppcPathTemplate: Option<string>,
    description: Option<string>,
    priority: Option<int>,
    variationName: Option<string>)
  {
    /** `type === "static"`: any other `type`, or none, is treated as dynamic. */
    predicate IsStatic() {
      kind == Some("static")
    }

    function TemplateAt(level: TemplateLevel): Option<string> {
      match level
      case DomainLevel => pathTemplate
      case EnvironmentLevel => environmentPathTemplate
      case BuLevel => buPathTemplate
      case PpcLevel => ppcPathTemplate
    }
  }

  /** The four template slots, least specific first. */
  datatype TemplateLevel = DomainLevel | EnvironmentLevel | BuLevel | PpcLevel

  /** How many context fields a level narrows by. */
  function Specificity(level: TemplateLevel): nat {
    match level
    case DomainLevel => 0
    case EnvironmentLevel => 1
    case BuLevel => 2
    case PpcLevel => 3
  }

  /**
   * Which template a dynamic policy uses, from which of the request's codes are
   * present (a JavaScript string is truthy exactly when it is non-empty).
   */
  function ChooseLevel(environment: string, buCode: string, ppcCode: string): TemplateLevel {
    if buCode != "" && ppcCode != "" then PpcLevel
    else if buCode != "" then BuLevel
    else if environment != "" then EnvironmentLevel
    else DomainLevel
  }

  function SelectTemplate(p: PathPolicy, environment: string, buCode: string, ppcCode: string): Option<string> {
    p.TemplateAt(ChooseLevel(environment, buCode, ppcCode))
  }

  const DomainToken := "${domain}"
  const EnvironmentToken := "${environment}"
  const BuToken := "${buCode}"
  const PpcToken := "${ppcCode}"

  /** The chained global replacements, in the order domain, environment, buCode, ppcCode. */
  function Interpolate(template: string, domainName: string, environment: string, buCode: string, ppcCode: string): string {
    var t1 := ReplaceAll(template, DomainToken, domainName);
    var t2 := ReplaceAll(t1, EnvironmentToken, environment);
    var t3 := ReplaceAll(t2, BuToken, buCode);
    ReplaceAll(t3, PpcToken, ppcCode)
  }

  /** `template.replace(...)` on an `undefined` template throws a TypeError. */
  datatype PathError = TemplateUndefined

  /**
   * The configuration path a policy designates: the static path verbatim (which
   * may itself be undefined), or the interpolated template of a dynamic policy.
   */
  function ResolvePath(p: PathPolicy, domainName: string, environment: string, buCode: string, ppcCode: string)
    : (r: Result<Option<string>, PathError>)
    ensures p.IsStatic() ==> r == Ok(p.staticPath)
    ensures !p.IsStatic() ==> (r.Err? <==> SelectTemplate(p, environment, buCode, ppcCode) == None)
    ensures !p.IsStatic() && r.Ok? ==>
              r.value == Some(Interpolate(SelectTemplate(p, environment, buCode, ppcCode).value,
                                          domainName, environment, buCode, ppcCode))
  {
    if p.IsStatic() then Ok(p.staticPath)
    else
      match SelectTemplate(p, environment, buCode, ppcCode)
      case None => Err(TemplateUndefined)
      case Some(template) => Ok(Some(Interpolate(template, domainName, environment, buCode, ppcCode)))
  }

  /** A static policy yields its path whatever the request context is. */
  lemma StaticPolicyIgnoresContext(p: PathPolicy,
                                   domainName: string, environment: string, buCode: string, ppcCode: string,
                                   domainName': string, environment': string, buCode': string, ppcCode': string)
    requires p.IsStatic()
    ensures ResolvePath(p, domainName, environment, buCode, ppcCode)
         == ResolvePath(p, domainName', environment', buCode', ppcCode')
         == Ok(p.staticPath)
  {
  }

  /** The template precedence: sub-unit, then unit, then environment, then domain only. */
  lemma TemplatePrecedence(p: PathPolicy, environment: string, buCode: string, ppcCode: string)
    ensures buCode != "" && ppcCode != "" ==> SelectTemplate(p, environment, buCode, ppcCode) == p.ppcPathTemplate
    ensures buCode != "" && ppcCode == "" ==> SelectTemplate(p, environment, buCode, ppcCode) == p.buPathTemplate
    ensures buCode == "" && environment != "" ==> SelectTemplate(p, environment, buCode, ppcCode) == p.environmentPathTemplate
    ensures buCode == "" && environment == "" ==> SelectTemplate(p, environment, buCode, ppcCode) == p.pathTemplate
  {
  }

  /** A sub-unit code without a unit code does not change which template is used. */
  lemma SubUnitIgnoredWithoutUnit(p: PathPolicy, environment: string, ppcCode: string)
    ensures SelectTemplate(p, environment, "", ppcCode) == SelectTemplate(p, environment, "", "")
  {
  }

  /**
   * The level chosen is the most specific one whose codes are all present; since
   * a request always names its environment, the domain-only template is never used.
   */
  lemma ChosenLevelIsMostSpecific(environment: string, buCode: string, ppcCode: string)
    ensures var level := ChooseLevel(environment, buCode, ppcCode);
            && (Specificity(level) >= 2 <==> buCode != "")
            && (Specificity(level) == 3 <==> buCode != "" && ppcCode != "")
            && (Specificity(level) >= 1 <==> environment != "" || buCode != "")
    ensures environment != "" ==> ChooseLevel(environment, buCode, ppcCode) != DomainLevel
  {
  }

  /** A template without any placeholder is returned as it is. */
  lemma InterpolateWithoutPlaceholders(template: string, domainName: string, environment: string, buCode: string, ppcCode: string)
    requires !Occurs(template, DomainToken) && !Occurs(template, EnvironmentToken)
    requires !Occurs(template, BuToken) && !Occurs(template, PpcToken)
    ensures Interpolate(template, domainName, environment, buCode, ppcCode) == template
  {
    ReplaceAllAbsent(template, DomainToken, domainName);
    ReplaceAllAbsent(template, EnvironmentToken, environment);
    ReplaceAllAbsent(template, BuToken, buCode);
    ReplaceAllAbsent(template, PpcToken, ppcCode);
  }

  /**
   * Every occurrence the scan finds is replaced: each step cuts its input into
   * pieces free of the placeholder and joins them with the substituted value.
   */
  lemma InterpolateReplacesEveryOccurrence(template: string, domainName: string, environment: string, buCode: string, ppcCode: string)
    ensures var t1 := ReplaceAll(template, DomainToken, domainName);
            var t2 := ReplaceAll(t1, EnvironmentToken, environment);
            var t3 := ReplaceAll(t2, BuToken, buCode);
            && Decomposes(SplitOn(template, DomainToken), template, DomainToken)
            && t1 == Join(SplitOn(template, DomainToken), domainName)
            && Decomposes(SplitOn(t1, EnvironmentToken), t1, EnvironmentToken)
            && t2 == Join(SplitOn(t1, EnvironmentToken), environment)
            && Decomposes(SplitOn(t2, BuToken), t2, BuToken)
            && t3 == Join(SplitOn(t2, BuToken), buCode)
            && Decomposes(SplitOn(t3, PpcToken), t3, PpcToken)
            && Interpolate(template, domainName, environment, buCode, ppcCode) == Join(SplitOn(t3, PpcToken), ppcCode)
  {
    var t1 := ReplaceAll(template, DomainToken, domainName);
    var t2 := ReplaceAll(t1, EnvironmentToken, environment);
    var t3 := ReplaceAll(t2, BuToken, buCode);
    SplitOnDecomposes(template, DomainToken);
    ReplaceAllIsSplitJoin(template, DomainToken, domainName);
    SplitOnDecomposes(t1, EnvironmentToken);
    ReplaceAllIsSplitJoin(t1, EnvironmentToken, environment);
    SplitOnDecomposes(t2, BuToken);
    ReplaceAllIsSplitJoin(t2, BuToken, buCode);
    SplitOnDecomposes(t3, PpcToken);
    ReplaceAllIsSplitJoin(t3, PpcToken, ppcCode);
  }

  /**
   * A placeholder other than the one being replaced is skipped whole: its
   * third character already differs from the pattern's.
   */
  lemma ReplaceAllSkipsOtherToken(a: string, s: string, pat: string, rep: string)
    requires |pat| > 2 && pat[0] == '$'
    requires |a| > 2 && a[0] == '$' && a[2] != pat[2] && '$' !in a[1..]
    ensures ReplaceAll(a + s, pat, rep) == a + ReplaceAll(s, pat, rep)
  {
    var t := a + s;
    ReplaceAllKeepsPlainPrefix(a[1..], s, pat, rep);
    assert t[1..] == a[1..] + s;
    if |t| >= |pat| {
      assert t[..|pat|][2] == a[2];
      assert t[..|pat|] != pat;
      assert ReplaceAll(t, pat, rep) == [t[0]] + ReplaceAll(t[1..], pat, rep);
      var r := ReplaceAll(s, pat, rep);
      assert [a[0]] + (a[1..] + r) == ([a[0]] + a[1..]) + r;
      assert a == [a[0]] + a[1..];
    } else {
      ReplaceAllAbsentShort(t, pat, rep);
      ReplaceAllAbsentShort(s, pat, rep);
    }
  }

  /** A placeholder followed by plain text: only the placeholder changes. */
  lemma ReplaceLeadingToken(pat: string, rest: string, rep: string)
    requires |pat| > 0 && pat[0] !in rest
    ensures ReplaceAll(pat + rest, pat, rep) == rep + rest
  {
    ReplaceAllKeepsPlainPrefix(rest, "", pat, rep);
    ReplaceAllAbsentShort("", pat, rep);
    assert rest + "" == rest;
    ReplaceAllFront(pat, rest, rep);
  }

  /** A placeholder after a different, leading placeholder and a plain separator: only the second changes. */
  lemma ReplaceSecondToken(a: string, pat: string, rest: string, rep: string)
    requires |pat| > 2 && pat[0] == '$' && pat[0] !in rest
    requires |a| > 2 && a[0] == '$' && a[2] != pat[2] && '$' !in a[1..]
    ensures ReplaceAll(a + pat + rest, pat, rep) == a + rep + rest
  {
    assert a + pat + rest == a + (pat + rest);
    ReplaceLeadingToken(pat, rest, rep);
    ReplaceAllSkipsOtherToken(a, pat + rest, pat, rep);
    assert a + (rep + rest) == a + rep + rest;
  }

  lemma Regroup(a: string, b: string, c: string, d: string)
    ensures a + b + c + d == a + (b + c + d)
  {
  }

  /** The environment template of domain1 with its placeholders written as the constants. */
  const Domain1EnvironmentTemplate := EnvironmentToken + "/" + DomainToken + "/config"

  /** The domain step: the environment placeholder in front is stepped over. */
  lemma EnvironmentTemplateDomainStep(domainName: string)
    ensures ReplaceAll(Domain1EnvironmentTemplate, DomainToken, domainName)
         == EnvironmentToken + "/" + domainName + "/config"
  {
    ReplaceSecondToken(EnvironmentToken + "/", DomainToken, "/config", domainName);
  }

  /** The environment step: the leading placeholder becomes the environment. */
  lemma EnvironmentTemplateEnvironmentStep(domainName: string, environment: string)
    requires '$' !in domainName
    ensures ReplaceAll(EnvironmentToken + "/" + domainName + "/config", EnvironmentToken, environment)
         == environment + "/" + domainName + "/config"
  {
    Regroup(EnvironmentToken, "/", domainName, "/config");
    Regroup(environment, "/", domainName, "/config");
    ReplaceLeadingToken(EnvironmentToken, "/" + domainName + "/config", environment);
  }

  /** The unit and sub-unit steps leave a path without any `$` unchanged. */
  lemma EnvironmentTemplateCodeSteps(path: string, buCode: string, ppcCode: string)
    requires '$' !in path
    ensures ReplaceAll(path, BuToken, buCode) == path
    ensures ReplaceAll(path, PpcToken, ppcCode) == path
  {
    assert path + "" == path;
    ReplaceAllKeepsPlainPrefix(path, "", BuToken, buCode);
    ReplaceAllAbsentShort("", BuToken, buCode);
    ReplaceAllKeepsPlainPrefix(path, "", PpcToken, ppcCode);
    ReplaceAllAbsentShort("", PpcToken, ppcCode);
  }

  /**
   * domain1's environment template, for a domain name and an environment
   * without `$`, resolves to "<environment>/<domain name>/config" whatever the codes.
   */
  lemma EnvironmentTemplateExample(domainName: string, environment: string, buCode: string, ppcCode: string)
    requires '$' !in domainName && '$' !in environment
    ensures Interpolate(Domain1EnvironmentTemplate, domainName, environment, buCode, ppcCode)
         == environment + "/" + domainName + "/config"
  {
    EnvironmentTemplateDomainStep(domainName);
    EnvironmentTemplateEnvironmentStep(domainName, environment);
    EnvironmentTemplateCodeSteps(environment + "/" + domainName + "/config", buCode, ppcCode);
  }

  /**
   * A sub-unit code given without a unit code is still substituted: it changes
   * the path whenever the chosen template mentions `${ppcCode}`.
   */
  lemma SubUnitCodeStillSubstituted(domainName: string, environment: string)
    ensures Interpolate(PpcToken, domainName, environment, "", "7") == "7"
    ensures Interpolate(PpcToken, domainName, environment, "", "") == ""
  {
    assert PpcToken == PpcToken + "";
    ReplaceAllSkipsOtherToken(PpcToken, "", DomainToken, domainName);
    ReplaceAllAbsentShort("", DomainToken, domainName);
    ReplaceAllSkipsOtherToken(PpcToken, "", EnvironmentToken, environment);
    ReplaceAllAbsentShort("", EnvironmentToken, environment);
    ReplaceAllSkipsOtherToken(PpcToken, "", BuToken, "");
    ReplaceAllAbsentShort("", BuToken, "");
    ReplaceAllFront(PpcToken, "", "7");
    ReplaceAllFront(PpcToken, "", "");
    ReplaceAllAbsentShort("", PpcToken, "7");
    ReplaceAllAbsentShort("", PpcToken, "");
  }
}
