/** Service aliases: the built-in table `SERVICE_MAPPING` and `get_service`,
    which merges it with the user's overrides from the configuration. */
module Services {
  import opened Wrappers
  import opened Urls

  /** `SERVICE_MAPPING.get(alias)`, console.py:20-72: the built-in target of a
      short alias, a console path fragment or a full URL template. */
  function BuiltinService(alias: string): Option<string>
  {
    match alias
    case "api" => Some("apigateway")
    case "appconfig" => Some("systems-manager/appconfig")
    case "appstream" => Some("appstream2")
    case "budgets" => Some("billing/home?#/budgets")
    case "c9" => Some("cloud9")
    case "ce" => Some("cost-management")
    case "cfn" => Some("cloudformation")
    case "cfnt" => Some("cloudfront")
    case "chime" => Some("https://chime.aws.amazon.com")
    case "code" => Some("codesuite")
    case "codebuild" => Some("codesuite/codebuild")
    case "codecommit" => Some("codesuite/codecommit")
    case "codedeploy" => Some("codesuite/codedeploy")
    case "codepipeline" => Some("codesuite/codepipeline")
    case "codestar" => Some("codesuite/codestar")
    case "codeartifact" => Some("codesuite/codeartifact")
    case "cw" => Some("cloudwatch")
    case "ddb" => Some("dynamodb")
    case "dms" => Some("dms/v2")
    case "documentdb" => Some("docdb")
    case "eb" => Some("elasticbeanstalk")
    case "ec" => Some("elasticache")
    case "es" => Some("elasticsearch")
    case "event" => Some("events")
    case "eventbridge" => Some("events")
    case "gd" => Some("guardduty")
    case "honey" => Some("honeycode")
    case "k8s" => Some("eks")
    case "l" => Some("lambda")
    case "lightsail" => Some("ls")
    case "logs-insights" => Some("https://{region}.console.{amazon_domain}/cloudwatch/home?region={region}#logsV2:logs-insights")
    case "logs" => Some("https://console.{amazon_domain}/cloudwatch/home?region={region}#logsV2:log-groups")
    case "mq" => Some("amazon-mq")
    case "org" => Some("organizations")
    case "orgs" => Some("organizations")
    case "qs" => Some("https://quicksight.aws.amazon.com")
    case "r53" => Some("route53")
    case "route" => Some("route53")
    case "sar" => Some("serverlessrepo")
    case "secret" => Some("secretsmanager")
    case "sfn" => Some("states")
    case "sgw" => Some("storagegateway")
    case "snow" => Some("importexport")
    case "ssm" => Some("systems-manager")
    case "sso" => Some("singlesignon")
    case "stepfunctions" => Some("states")
    case "sumerian" => Some("sumerianv2")
    case "waf" => Some("wafv2")
    case "wat" => Some("wellarchitected")
    case "workdocs" => Some("zocalo")
    case "workmail" => Some("workmail/v2")
    case _ => None
  }

  /** The `console` section of the configuration; `services` holds the user's
      alias overrides. */
  datatype ConsoleSection = ConsoleSection(services: Option<map<string, string>>)

  /** The plugin's view of the configuration: an optional `console` section. */
  datatype Config = Config(console: Option<ConsoleSection>)

  /** `config.get('console', {}).get('services', {})`: the overrides, empty when
      either level is missing. */
  function ConfigServices(config: Config): (overrides: map<string, string>)
    ensures config.console.Some? && config.console.value.services.Some? ==>
      overrides == config.console.value.services.value
    ensures config.console.None? || config.console.value.services.None? ==> overrides == map[]
  {
    match config.console
    case None => map[]
    case Some(section) =>
      match section.services
      case None => map[]
      case Some(services) => services
  }

  /** `get_service(requested, config)`: the target in the table merged from
      `{ **SERVICE_MAPPING, **config_services }`, where an override shadows the
      built-in entry of the same alias, or the alias itself when neither table
      has it. */
  function GetService(requested: string, config: Config): (service: string)
    ensures requested in ConfigServices(config) ==> service == ConfigServices(config)[requested]
    ensures requested !in ConfigServices(config) && BuiltinService(requested).Some? ==>
      service == BuiltinService(requested).value
    ensures requested !in ConfigServices(config) && BuiltinService(requested).None? ==>
      service == requested
  {
    var overrides := ConfigServices(config);
    if requested in overrides then overrides[requested]
    else match BuiltinService(requested)
      case Some(target) => target
      case None => requested
  }

  /** The table has no keys besides its 51 aliases: any other name has no
      built-in target. */
  lemma UnlistedAliasHasNoTarget(alias: string)
    requires alias != "api" && alias != "appconfig" && alias != "appstream" && alias != "budgets" && alias != "c9" &&
      alias != "ce" && alias != "cfn" && alias != "cfnt" && alias != "chime" && alias != "code" &&
      alias != "codebuild" && alias != "codecommit" && alias != "codedeploy" && alias != "codepipeline" && alias != "codestar" &&
      alias != "codeartifact" && alias != "cw" && alias != "ddb" && alias != "dms" && alias != "documentdb" &&
      alias != "eb" && alias != "ec" && alias != "es" && alias != "event" && alias != "eventbridge" &&
      alias != "gd" && alias != "honey" && alias != "k8s" && alias != "l" && alias != "lightsail" &&
      alias != "logs-insights" && alias != "logs" && alias != "mq" && alias != "org" && alias != "orgs" &&
      alias != "qs" && alias != "r53" && alias != "route" && alias != "sar" && alias != "secret" &&
      alias != "sfn" && alias != "sgw" && alias != "snow" && alias != "ssm" && alias != "sso" &&
      alias != "stepfunctions" && alias != "sumerian" && alias != "waf" && alias != "wat" && alias != "workdocs" &&
      alias != "workmail"
    ensures BuiltinService(alias) == None
  {
  }

  /** No alias from `api` to `chime`, in table order, contains a colon. */
  lemma ColonExcludesApiToChime(alias: string)
    requires ':' in alias
    ensures alias != "api" && alias != "appconfig" && alias != "appstream" && alias != "budgets" && alias != "c9" &&
      alias != "ce" && alias != "cfn" && alias != "cfnt" && alias != "chime"
  {
  }

  /** No alias from `code` to `ddb`, in table order, contains a colon. */
  lemma ColonExcludesCodeToDdb(alias: string)
    requires ':' in alias
    ensures alias != "code" && alias != "codebuild" && alias != "codecommit" && alias != "codedeploy" && alias != "codepipeline" &&
      alias != "codestar" && alias != "codeartifact" && alias != "cw" && alias != "ddb"
  {
  }

  /** No alias from `dms` to `honey`, in table order, contains a colon. */
  lemma ColonExcludesDmsToHoney(alias: string)
    requires ':' in alias
    ensures alias != "dms" && alias != "documentdb" && alias != "eb" && alias != "ec" && alias != "es" &&
      alias != "event" && alias != "eventbridge" && alias != "gd" && alias != "honey"
  {
  }

  /** No alias from `k8s` to `qs`, in table order, contains a colon. */
  lemma ColonExcludesK8sToQs(alias: string)
    requires ':' in alias
    ensures alias != "k8s" && alias != "l" && alias != "lightsail" && alias != "logs-insights" && alias != "logs" &&
      alias != "mq" && alias != "org" && alias != "orgs" && alias != "qs"
  {
  }

  /** No alias from `r53` to `sso`, in table order, contains a colon. */
  lemma ColonExcludesR53ToSso(alias: string)
    requires ':' in alias
    ensures alias != "r53" && alias != "route" && alias != "sar" && alias != "secret" && alias != "sfn" &&
      alias != "sgw" && alias != "snow" && alias != "ssm" && alias != "sso"
  {
  }

  /** No alias from `stepfunctions` to `workmail`, in table order, contains a colon. */
  lemma ColonExcludesStepfunctionsToWorkmail(alias: string)
    requires ':' in alias
    ensures alias != "stepfunctions" && alias != "sumerian" && alias != "waf" && alias != "wat" && alias != "workdocs" &&
      alias != "workmail"
  {
  }

  /** Every built-in alias is a bare word without a colon. */
  lemma BuiltinAliasesHaveNoColon(alias: string)
    ensures BuiltinService(alias).Some? ==> ':' !in alias
  {
    if ':' in alias {
      ColonExcludesApiToChime(alias);
      ColonExcludesCodeToDdb(alias);
      ColonExcludesDmsToHoney(alias);
      ColonExcludesK8sToQs(alias);
      ColonExcludesR53ToSso(alias);
      ColonExcludesStepfunctionsToWorkmail(alias);
      UnlistedAliasHasNoTarget(alias);
    }
  }

  /** Entries of the built-in table: a path fragment and a URL template. */
  lemma BuiltinTableEntries()
    ensures BuiltinService("ddb") == Some("dynamodb")
    ensures BuiltinService("logs")
         == Some("https://console.{amazon_domain}/cloudwatch/home?region={region}#logsV2:log-groups")
  {
  }

  /** Example lookups: with the override `x -> y`,
      `ddb` still resolves through the built-in table, `x` through the override,
      and an unknown alias passes through. */
  lemma ResolutionExamples()
    ensures GetService("ddb", Config(None)) == "dynamodb"
    ensures var config := Config(Some(ConsoleSection(Some(map["x" := "y"]))));
      && GetService("ddb", config) == "dynamodb"
      && GetService("x", config) == "y"
      && GetService("unknown-alias", config) == "unknown-alias"
  {
  }

  /** An override wins over the built-in entry of the same alias. */
  lemma OverrideWins(alias: string, target: string)
    requires BuiltinService(alias).Some?
    ensures GetService(alias, Config(Some(ConsoleSection(Some(map[alias := target]))))) == target
  {
  }

  /** Resolution does not look at URLs specially, yet no URL is a built-in
      alias: a full URL that the user has not overridden comes back as it is. */
  lemma UrlPassesThrough(url: string, config: Config)
    requires IsUrl(url)
    requires url !in ConfigServices(config)
    ensures GetService(url, config) == url
  {
    IsUrlIffHasScheme(url);
    var i :| SchemeEndsAt(url, i);
    assert url[i] == ':';
    BuiltinAliasesHaveNoColon(url);
  }
}
