# awsume console plugin — a Dafny model of console URL construction

The awsume console plugin turns a set of temporary AWS credentials into a
link that opens the AWS Management Console already signed in. Four steps
make up its core, all in `console.py`:

- **Flag decoding** (`parse_args`). The flags `-c`, `-cl`, `-cs <service>` and
  `-cls <service>` decide whether a URL is wanted, whether it is opened in a
  browser or printed, and which service page to open.
- **Alias resolution** (`get_service`). A short alias such as `ddb` is looked
  up in the built-in `SERVICE_MAPPING` table, merged with the user's
  `console.services` overrides. A name that is in neither table is used as
  given.
- **Destination** (`is_url`, `template_url`, first half of
  `get_console_url`):
  - The region defaults to `us-east-1`.
  - The partition domain follows from the region's prefix: `us-gov-` gives
    `amazonaws-us-gov.com`, `cn-` gives `amazonaws.cn`, and any other region
    gives `aws.amazon.com`.
  - A destination with a URL scheme has its `{region}` and `{amazon_domain}`
    placeholders filled in.
  - Any other destination becomes `https://console.<domain>/<destination>/home?region=<region>`.
- **Federation** (second half of `get_console_url`). Unless authentication is
  switched off, the credentials are exchanged for a sign-in token at
  `https://signin.<domain>/federation?`. The result is that endpoint followed
  by the encoded query `Action=login`, `Issuer=`, `Destination=<target>`,
  `SigninToken=<token>`.

The project has five modules:

| module | file | contents |
|---|---|---|
| `Wrappers` | `wrappers.dfy` | the `Option` and `Result` types |
| `Text` | `text.dfy` | Python's `str.startswith`, `str.replace`, `str.split` and `str.join` |
| `Urls` | `urls.dfy` | `is_url` and `template_url` |
| `Services` | `services.dfy` | the alias table and `get_service` |
| `Console` | `console.dfy` | `parse_args` and `get_console_url` |

Models and references:

- **`str.replace`** is modelled by a recursive `Replace`. It is checked against
  an independent reference: it equals joining the pieces of `Split` with the
  replacement.
- **`is_url`** is modelled by a scan for a scheme. It is proved equivalent to an
  existential reference definition.
- **`template_url`** is a `while` loop proved against a left fold, `Templated`.
- **`get_console_url`** receives the federation exchange as a function
  parameter, `exchange`, and query-string encoding as another, `urlencode`.
  Its `requests` out-parameter lists the exchanges it made.

Two points where a reader might expect one behaviour and the code does
another. The model follows the code in both:

- **Alias resolution of full URLs.** One might expect a full-URL service
  argument to bypass the alias table. In the code, `parse_args` passes every
  service flag through `get_service` (console.py:177, 181). The bypass still
  holds in effect: no built-in alias contains a colon, so a URL that the user
  has not overridden comes back unchanged (`UrlPassesThrough`).
- **Single-pass templating.** One might expect a value that contains a
  placeholder not to be expanded again. The code applies the keywords one
  after another (console.py:198-199), so a value inserted for `{region}`
  would still have its `{amazon_domain}` replaced
  (`LaterKeywordExpandsEarlierValue`). Real region names contain no braces,
  so this never shows in practice.

## Model

| member | source | states |
|---|---|---|
| Services.ConfigServices | console.py:187 | the overrides are `console.services` when both levels are present, and empty when either level is missing |
| Services.GetService | console.py:186-189 | an override wins; otherwise the built-in target is used; otherwise the requested name comes back unchanged |
| Services.BuiltinTableEntries | console.py:20-72 | `ddb` maps to the path fragment `dynamodb`; `logs` maps to the CloudWatch URL template with both placeholders |
| Services.BuiltinService | console.py:20-72 | the 51 entries of `SERVICE_MAPPING`, in source order: the target of a listed alias, and nothing for any other name |
| Services.UnlistedAliasHasNoTarget | console.py:20-72 | the table has no keys besides its 51 aliases |
| Services.ColonExcludesApiToChime | console.py:21-29 | none of the aliases `api` to `chime` contains a colon |
| Services.ColonExcludesCodeToDdb | console.py:30-38 | none of the aliases `code` to `ddb` contains a colon |
| Services.ColonExcludesDmsToHoney | console.py:39-47 | none of the aliases `dms` to `honey` contains a colon |
| Services.ColonExcludesK8sToQs | console.py:48-56 | none of the aliases `k8s` to `qs` contains a colon |
| Services.ColonExcludesR53ToSso | console.py:57-65 | none of the aliases `r53` to `sso` contains a colon |
| Services.ColonExcludesStepfunctionsToWorkmail | console.py:66-71 | none of the aliases `stepfunctions` to `workmail` contains a colon |
| Services.BuiltinAliasesHaveNoColon | console.py:20-72 | no key of the built-in table contains a colon |
| Services.ResolutionExamples | console.py:186-189 | with no configuration `ddb` resolves to `dynamodb`; with the override `x -> y`, `x` resolves to `y`, `ddb` still resolves through the built-in table, and an unknown alias passes through |
| Services.OverrideWins | console.py:188 | a user override shadows the built-in entry for the same alias |
| Services.UrlPassesThrough | console.py:186-189 | every URL that is not a key of the user's overrides comes back unchanged, because no built-in alias is a URL |
| Console.ParseArgs | console.py:162-183 | a URL is wanted iff any of the four flags is set (an empty service name counts as unset); the browser is opened iff `-c` or `-cs` is set; the URL is printed iff `-cl` or `-cls` is set; a URL is wanted iff it is opened or printed; the `-cls` service wins over `-cs`; without either the service is `console` |
| Console.RegionOf | console.py:205 | the region is never empty: it is the credentials' region when that is given and non-empty, and `us-east-1` otherwise |
| Console.AmazonDomain | console.py:207-212 | the domain is `amazonaws-us-gov.com` iff the region starts with `us-gov-`, `amazonaws.cn` iff it starts with `cn-`, and `aws.amazon.com` iff it starts with neither |
| Console.DomainOfPartition | console.py:207-212 | every `us-gov-*` region maps to the GovCloud domain and every `cn-*` region to the China domain; `us-west-2` and the default region map to the public domain |
| Console.TargetIsUrl | console.py:214 | the target page is always a URL, whether the destination was a URL template or a path fragment |
| Console.TargetKeepsOtherPlaceholders | console.py:214 | in a URL destination, a placeholder other than `{region}` and `{amazon_domain}` stays literal, and the text on each side of it is templated on its own |
| Console.TemplateArguments | console.py:214 | the keywords `template_url` receives: `region`, then `amazon_domain` |
| Console.ConsoleTarget | console.py:214 | the target page: a URL destination templated with the region and domain, or `https://console.<domain>/<destination>/home?region=<region>` |
| Console.FederationEndpoint | console.py:231-247 | `https://signin.<domain>/federation?`, used for both the token request and the sign-in URL |
| Console.LoginParameters | console.py:240-245 | the sign-in query in encoding order: `Action=login`, an empty `Issuer`, the target as `Destination`, the token as `SigninToken` |
| Console.GetConsoleUrl | console.py:204-249 | without authentication, the result is the target page and no request is made; otherwise exactly one `getSigninToken` request carrying the credentials goes to the partition's federation endpoint; a reply without a token is an error; a token gives the endpoint followed by the encoded `Action, Issuer, Destination, SigninToken` query |
| Urls.IsUrl | console.py:192-193 | `is_url`: the string starts with a letter followed by scheme characters up to a `:` |
| Urls.IsUrlIffHasScheme | console.py:192-193 | the scheme scan accepts a string iff some prefix of it is a letter, then scheme characters, then `:` (both directions) |
| Urls.WebAddressIsUrl | console.py:192-193 | every `https://` address is a URL |
| Urls.ColonFreeIsNotUrl | console.py:192-193 | text without a colon, such as a bare service name, is not a URL |
| Urls.Placeholder | console.py:199 | the `{key}` token, `'{%s}' % key`: the key wrapped in braces |
| Urls.Templated | console.py:198-199 | the left fold that replaces each keyword's placeholder by its value, in keyword order |
| Urls.TemplateUrl | console.py:196-201 | the loop's result equals the left fold that applies each keyword's replacement in keyword order |
| Urls.ReplaceLonePlaceholder | console.py:199 | in otherwise brace-free text, `{key}` is replaced by its value and nothing else changes |
| Urls.LaterKeywordExpandsEarlierValue | console.py:198-199 | a value inserted for an earlier keyword is templated again by later keywords |
| Urls.TemplatedWithoutPlaceholders | console.py:198-199 | a template that contains none of the keywords' placeholders comes back unchanged (an unused keyword is harmless) |
| Urls.ReplaceKeepsOtherPlaceholder | console.py:199 | replacing one placeholder leaves a different placeholder literally in place and replaces around it |
| Urls.TemplatedKeepsUnmatchedPlaceholder | console.py:198-199 | a placeholder with no matching keyword stays literal, and the text on each side is templated on its own |
| Urls.ReplaceKeepsUrl | console.py:199 | replacing a `{...}` token cannot disturb a URL's scheme |
| Urls.TemplatedKeepsUrl | console.py:198-199 | templating a URL yields a URL |
| Urls.BraceFreeHasNoPlaceholder | console.py:199 | text without braces contains no placeholder |
| Text.StartsWith | console.py:207-209 | `str.startswith`: the prefix is at most as long as the string and equals its first characters |
| Text.Replace | console.py:199 | `str.replace`: every non-overlapping occurrence of a non-empty pattern, scanned left to right, is replaced, and the replacement text is not scanned again |
| Text.JoinSplit | console.py:199 | joining the pieces of a split with the pattern restores the original string |
| Text.SplitPartsAvoidPattern | console.py:199 | no piece of a split contains the pattern |
| Text.ReplaceIsJoinOfSplit | console.py:199 | `s.replace(p, r)` equals `r.join(s.split(p))` |
| Text.ReplaceAbsent | console.py:199 | a string that does not contain the pattern is unchanged by replacement |
| Text.ReplaceConcat | console.py:199 | replacement distributes over concatenation when no occurrence of the pattern straddles the seam |

## Left out

- The awsume hook functions (console.py:75-159) are not modelled. They cover argument registration, the post-profile and post-command hooks, fetching credentials from the session, and printing. They are glue around the modelled core.
- `open_url` (console.py:252-265) is not modelled. It formats and launches a browser command or the platform's default browser, which are operating-system effects.
- The HTTPS request and JSON decoding (console.py:231-238) are replaced by the `exchange` parameter.
  - The bytes-versus-text decoding fallback is not modelled.
  - A reply without `SigninToken`, which raises in the source, is modelled as the error `SigninTokenUnavailable`.
- `URLENCODE` (console.py:232, 248) is the `urlencode` parameter. The model records the getSigninToken request's fields, not its encoded form: the `Session` dictionary is sent as its Python `str()` through `urlencode`, and that text is not modelled.
- Urls.IsUrl: follows the scheme rule of section 3.1 of RFC 3986 (a letter, then letters, digits, `+`, `-` or `.`, up to the first `:`), not every version of Python's `urlparse`. Versions differ, and these behaviours are not modelled:
  - stripping leading whitespace and control characters, and removing tab and newline characters;
  - before Python 3.11.1, 3.10.9 and 3.9.16, the first scheme character need not be a letter, so `1a:b` had the scheme `1a`, which the model rejects;
  - before Python 3.9, a scheme was refused when everything after the colon was digits.
- Logging calls (`logger.debug`) are left out: they have no effect on results.
- The guard `credentials if credentials is not None else {}` (console.py:220) is not modelled. It can never fire there, because line 205 has already read from `credentials`.
- Null entries in the configuration (`services: null`) and non-string override values cannot be represented: `ConfigServices` models a missing level as `None` and overrides as a string-to-string map.
- Text.Replace: requires a non-empty pattern. `str.replace` with an empty pattern is never used, because placeholders always have braces.
- `setup.py` (packaging) is not modelled.
- Services.BuiltinTableEntries: checks two entries by value. All 51 entries appear in `BuiltinService`, and the universal facts about the table's keys are in `UnlistedAliasHasNoTarget` and `BuiltinAliasesHaveNoColon`.
- Console.GetConsoleUrl: has no concrete end-to-end example with literal region and destination strings; its contract is stated for all inputs instead.
- Console.GetConsoleUrl: `requests` is a log that the body keeps of the requests it hands to `exchange`; the verifier does not tie the log to the calls themselves. It does check that the result without authentication does not depend on `exchange`.
