/** The console plugin's URL construction, console.py:162-249: decoding the
    console flags, choosing region and partition domain, building the target
    page's URL and wrapping it in a federation sign-in URL. */
module Console {
  import opened Wrappers
  import opened Text
  import opened Urls
  import opened Services

  /** The plugin's command-line flags. `-c` and `-cl` are switches; `-cs` and
      `-cls` carry a service name and are absent (`False`) when not given. */
  datatype Arguments = Arguments(
    console: bool,
    consoleLink: bool,
    consoleService: Option<string>,
    consoleLinkService: Option<string>)

  /** Python truthiness of a service flag: given, and not the empty string. */
  predicate Given(option: Option<string>)
  {
    option.Some? && option.value != ""
  }

  /** `parse_args`: which of "get a URL", "open a browser" and "print the URL"
      the flags ask for, and the service to open. The `-cls` service is
      resolved last, so it wins over `-cs`; with no service flag the
      destination is the console home, `console`. */
  method ParseArgs(arguments: Arguments, config: Config)
    returns (getUrl: bool, openBrowser: bool, printUrl: bool, service: string)
    ensures getUrl <==> (arguments.console || arguments.consoleLink
      || Given(arguments.consoleService) || Given(arguments.consoleLinkService))
    ensures openBrowser <==> arguments.console || Given(arguments.consoleService)
    ensures printUrl <==> arguments.consoleLink || Given(arguments.consoleLinkService)
    ensures getUrl <==> openBrowser || printUrl
    ensures Given(arguments.consoleLinkService) ==>
      service == GetService(arguments.consoleLinkService.value, config)
    ensures !Given(arguments.consoleLinkService) && Given(arguments.consoleService) ==>
      service == GetService(arguments.consoleService.value, config)
    ensures !Given(arguments.consoleLinkService) && !Given(arguments.consoleService) ==>
      service == "console"
  {
    getUrl := false;
    openBrowser := false;
    printUrl := false;
    service := "console";

    if arguments.console {
      getUrl := true;
      openBrowser := true;
    }
    if arguments.consoleLink {
      getUrl := true;
      printUrl := true;
    }
    if Given(arguments.consoleService) {
      getUrl := true;
      openBrowser := true;
      service := GetService(arguments.consoleService.value, config);
    }
    if Given(arguments.consoleLinkService) {
      getUrl := true;
      printUrl := true;
      service := GetService(arguments.consoleLinkService.value, config);
    }
  }

  /** The temporary credentials the plugin is handed; each entry may be missing. */
  datatype Credentials = Credentials(
    accessKeyId: Option<string>,
    secretAccessKey: Option<string>,
    sessionToken: Option<string>,
    region: Option<string>)

  const DefaultRegion := "us-east-1"
  const GovCloudDomain := "amazonaws-us-gov.com"
  const ChinaDomain := "amazonaws.cn"
  const PublicDomain := "aws.amazon.com"

  /** `credentials.get('Region') or 'us-east-1'` */
  function RegionOf(credentials: Credentials): (region: string)
    ensures region != ""
    ensures credentials.region.Some? && credentials.region.value != "" ==>
      region == credentials.region.value
    ensures credentials.region.None? || credentials.region.value == "" ==>
      region == DefaultRegion
  {
    match credentials.region
    case Some(r) => if r != "" then r else DefaultRegion
    case None => DefaultRegion
  }

  /** The partition's domain, chosen by the region's prefix. */
  function AmazonDomain(region: string): (domain: string)
    ensures domain == GovCloudDomain <==> StartsWith(region, "us-gov-")
    ensures domain == ChinaDomain <==> StartsWith(region, "cn-")
    ensures domain == PublicDomain <==> !StartsWith(region, "us-gov-") && !StartsWith(region, "cn-")
  {
    // the two prefixes already differ in their first character
    assert StartsWith(region, "cn-") ==> region[0] == 'c' && !StartsWith(region, "us-gov-");
    if StartsWith(region, "us-gov-") then GovCloudDomain
    else if StartsWith(region, "cn-") then ChinaDomain
    else PublicDomain
  }

  /** Every region of a partition maps to that partition's domain. */
  lemma DomainOfPartition(suffix: string)
    ensures AmazonDomain("us-gov-" + suffix) == GovCloudDomain
    ensures AmazonDomain("cn-" + suffix) == ChinaDomain
    ensures AmazonDomain("us-west-2") == PublicDomain
    ensures AmazonDomain(DefaultRegion) == PublicDomain
  {
    assert ("us-gov-" + suffix)[..7] == "us-gov-";
    assert ("cn-" + suffix)[..3] == "cn-";
    assert "us-west-2"[..7][3] == 'w' && "us-west-2"[0] == 'u';
    assert DefaultRegion[..7][3] == 'e' && DefaultRegion[0] == 'u';
  }

  /** The keyword arguments `template_url` is called with, in call order. */
  function TemplateArguments(region: string, domain: string): seq<(string, string)>
  {
    [("region", region), ("amazon_domain", domain)]
  }

  /** The page the user is sent to: a full URL destination is templated with
      the region and domain, anything else is a path on the console domain. */
  function ConsoleTarget(region: string, domain: string, destination: string): string
  {
    if IsUrl(destination) then Templated(destination, TemplateArguments(region, domain))
    else "https://console." + domain + "/" + destination + "/home?region=" + region
  }

  /** The target is always an absolute URL, whichever form the destination had. */
  lemma TargetIsUrl(region: string, domain: string, destination: string)
    ensures IsUrl(ConsoleTarget(region, domain, destination))
  {
    var target := ConsoleTarget(region, domain, destination);
    if IsUrl(destination) {
      TemplatedKeepsUrl(destination, TemplateArguments(region, domain));
    } else {
      assert SchemeEndsAt(target, 5);
      IsUrlIffHasScheme(target);
    }
  }

  /** A full URL destination gets only `{region}` and `{amazon_domain}`
      filled in: any other placeholder in it stays literal. */
  lemma TargetKeepsOtherPlaceholders(region: string, domain: string, before: string, key: string, after: string)
    requires IsUrl(before + Placeholder(key) + after)
    requires BraceFree(key) && key != "region" && key != "amazon_domain"
    ensures ConsoleTarget(region, domain, before + Placeholder(key) + after)
         == Templated(before, TemplateArguments(region, domain)) + Placeholder(key)
            + Templated(after, TemplateArguments(region, domain))
  {
    var kwargs := TemplateArguments(region, domain);
    assert BraceFree("region") && BraceFree("amazon_domain");
    TemplatedKeepsUnmatchedPlaceholder(before, after, key, kwargs);
  }

  /** The request that exchanges the credentials for a sign-in token at the
      federation endpoint (`Action=getSigninToken` with the session triple). */
  datatype SigninTokenRequest = SigninTokenRequest(
    endpoint: string,
    action: string,
    sessionId: Option<string>,
    sessionKey: Option<string>,
    sessionToken: Option<string>)

  /** Why no sign-in URL could be produced: the federation endpoint's reply
      did not yield a `SigninToken`. */
  datatype ConsoleError = SigninTokenUnavailable

  /** `'https://signin.' + amazon_domain + '/federation?'` */
  function FederationEndpoint(domain: string): string
  {
    "https://signin." + domain + "/federation?"
  }

  /** The query of the final sign-in URL, in the order it is encoded. */
  function LoginParameters(target: string, token: string): seq<(string, string)>
  {
    [("Action", "login"), ("Issuer", ""), ("Destination", target), ("SigninToken", token)]
  }

  /** `get_console_url`. The federation exchange is the parameter `exchange`
      (the token, or `None` when the reply carries none) and query-string
      encoding is the parameter `urlencode`. `requests` is a log that the body
      keeps by hand of the requests it hands to `exchange`; the verifier does
      not tie it to the calls themselves. What the verifier does check is that
      without authentication the result, the target URL, does not depend on
      `exchange` at all. With authentication the logged request goes to the
      partition's federation endpoint and the result is that endpoint with the
      login query. */
  method GetConsoleUrl(
    credentials: Credentials,
    destination: string,
    withoutAuthentication: bool,
    exchange: SigninTokenRequest -> Option<string>,
    urlencode: seq<(string, string)> -> string)
    returns (url: Result<string, ConsoleError>, requests: seq<SigninTokenRequest>)
    ensures var region := RegionOf(credentials);
      var domain := AmazonDomain(region);
      var target := ConsoleTarget(region, domain, destination);
      if withoutAuthentication then
        requests == [] && url == Ok(target)
      else
        && requests == [SigninTokenRequest(FederationEndpoint(domain), "getSigninToken",
             credentials.accessKeyId, credentials.secretAccessKey, credentials.sessionToken)]
        && match exchange(requests[0])
           case None => url == Err(SigninTokenUnavailable)
           case Some(token) => url == Ok(FederationEndpoint(domain) + urlencode(LoginParameters(target, token)))
  {
    var region := RegionOf(credentials);
    var domain := AmazonDomain(region);

    var target;
    if IsUrl(destination) {
      target := TemplateUrl(destination, TemplateArguments(region, domain));
    } else {
      target := "https://console." + domain + "/" + destination + "/home?region=" + region;
    }

    if withoutAuthentication {
      return Ok(target), [];
    }

    var request := SigninTokenRequest(FederationEndpoint(domain), "getSigninToken",
      credentials.accessKeyId, credentials.secretAccessKey, credentials.sessionToken);
    requests := [request];
    var reply := exchange(request);
    if reply.None? {
      return Err(SigninTokenUnavailable), requests;
    }
    url := Ok(FederationEndpoint(domain) + urlencode(LoginParameters(target, reply.value)));
  }
}
