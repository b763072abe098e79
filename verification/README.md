# CyberScope scanner core in Dafny

A model of three pieces of the CyberScope website scanner, with proofs about them:

- **The database exposure detector** (`DatabaseScanner`, `database_scanner.dfy`). It covers:
  - the content scan over the fixed rule table, plus the single SQL-indicator finding;
  - the probe of the fixed list of sensitive endpoints;
  - the scan of captured network traffic;
  - the aggregation that tallies findings by severity and by type.
- **The domain verifier** (`DomainVerification`, `domain_verification.dfy`). Its state is two maps: the token store and the verified-domain store. On top of that state it models:
  - token issue;
  - the three verification methods (DNS TXT record, HTML meta tag, well-known file), tried in order;
  - the access check;
  - the allow-list and the deny-pattern gates.
- **The scan endpoint** (`ScanRoute`, `scan_route.dfy`). It covers:
  - the ordered gate sequence of `POST /api/scan`;
  - the extraction of the page's scripts;
  - the pass that drops scripts and counts credentials with a running total and a per-type summary;
  - the counters of the answer.

`cyberscope.dfy` (`Cyberscope`) holds the records the three exchange. Severity and exposure type are closed datatypes there. `common.dfy` (`Common`) holds the string and collection helpers:
- ASCII lower-casing, substring tests, trimming;
- `split("\n")`/`join`;
- the sum of a map's values;
- the generic per-key tally used by both counters.

Everything outside the core is an input. That covers:
- regular-expression matching (for the rule table), DNS answers, HTTP fetches and URL parsing;
- the random token and the clock;
- the browser and the page;
- the helper modules the route imports (credentials, filters, utils, network).

The state of the verifier is a value: every operation returns the new stores.

Where the code and its documentation disagree, the model follows the code:
- **Store keys.** A token is stored under the normalized domain (lower-cased, one leading `www.` removed). The lookups and the verified store use the extracted hostname, which is only lower-cased. So a token issued for `www.x.com` is never found when `www.x.com` is verified. `DomainVerification.WwwTokenNotFound` proves this.
- **Requests without a user.** `isDomainVerified` also grants access when the request carries no user id, even if the record names one.

## Model

| member | source | states |
|---|---|---|
| DatabaseScanner.TableExposures | src/app/lib/scanner/database-exposure.ts:95-109 | one exposure per match of each rule: their number is the total match count; each is the finding of some rule for one of its matches; each carries the caller's source and evidence of at most 103 characters |
| DatabaseScanner.TableExposuresAppend | src/app/lib/scanner/database-exposure.ts:95-109 | the rule loop over two tables reports the first table's exposures, then the second's |
| DatabaseScanner.TableExposuresOne | src/app/lib/scanner/database-exposure.ts:97-108 | a table of one rule reports exactly one exposure per match of that rule, in the order of the matches |
| DatabaseScanner.EveryMatchReported | src/app/lib/scanner/database-exposure.ts:95-109 | every match of every rule in the table is reported with that rule's type and severity |
| DatabaseScanner.SqlIndicator | src/app/lib/scanner/database-exposure.ts:111-132 | at most one SQL-indicator exposure, present exactly when some indicator pattern matches, always medium `error_message` without evidence |
| DatabaseScanner.ScanContent | src/app/lib/scanner/database-exposure.ts:92-135 | the first findings are exactly those of the rule loop, one per match, rule by rule; after them comes the indicator loop's at most one finding; all carry the caller's source and no url |
| DatabaseScanner.ExcerptLines | src/app/lib/scanner/database-exposure.ts:362-371 | at most `count` lines, each the cut form of an input line the filter accepts, each at most width+3 long |
| DatabaseScanner.ExcerptIsFilterPrefix | src/app/lib/scanner/database-exposure.ts:364-370 | the excerpt is exactly filter, then take the first `count`, then cut each line |
| DatabaseScanner.EvidenceExcerpt | src/app/lib/scanner/database-exposure.ts:398-408 | the evidence is the newline join of the excerpt lines, with a length bound from count and width |
| DatabaseScanner.CredentialEvidence | src/app/lib/scanner/database-exposure.ts:362-371 | at most three credential lines of at most 83 characters, joined by newlines |
| DatabaseScanner.ErrorEvidence | src/app/lib/scanner/database-exposure.ts:398-408 | at most two error lines of at most 103 characters, joined by newlines |
| DatabaseScanner.DetermineSeverity | src/app/lib/scanner/database-exposure.ts:373-378 | never low; critical iff a case-sensitive product name in the path and status 200; medium iff neither |
| DatabaseScanner.UpperCasePhpMyAdminAtMostHigh | src/app/lib/scanner/database-exposure.ts:73 | the `/phpMyAdmin` probe path never rates critical, whatever the status |
| DatabaseScanner.IndicatorBodyIsAdmin | src/app/lib/scanner/database-exposure.ts:319-334 | a body that is one of the indicators, in its own or lower case, is an admin interface for any title |
| DatabaseScanner.ProbeFindings | src/app/lib/scanner/database-exposure.ts:154-189 | at most three exposures; each check contributes its own type exactly when it holds; no type appears twice; each finding has source `endpoint_scan` and the probed url |
| DatabaseScanner.ProbeFindingsCount | src/app/lib/scanner/database-exposure.ts:154-189 | each check that holds is reported exactly once, one that fails not at all, and nothing else is reported |
| DatabaseScanner.ProbeAnswered | src/app/lib/scanner/database-exposure.ts:150-190 | a status of 400 or more reports nothing; otherwise each check reports its type exactly when its predicates hold, and no type twice |
| DatabaseScanner.AdminFindingAlone | src/app/lib/scanner/database-exposure.ts:154-189 | when only the admin check holds, the only finding is the admin exposure |
| DatabaseScanner.AdminFindingOnly | src/app/lib/scanner/database-exposure.ts:150-189 | an answered admin page that lists no files, at a path naming no config file, yields exactly the admin exposure |
| DatabaseScanner.PhpMyAdminProbeIsCritical | src/app/lib/scanner/database-exposure.ts:150-164 | an admin page answering 200 at `/phpmyadmin` yields one admin exposure, rated critical |
| DatabaseScanner.ProbeEndpoint | src/app/lib/scanner/database-exposure.ts:141-194 | a thrown request reports nothing; an answered one reports what its checks find, at most three exposures |
| DatabaseScanner.ProbeAllAppend | src/app/lib/scanner/database-exposure.ts:140-195 | the probe loop over two lists of endpoints is the concatenation of the two loops |
| DatabaseScanner.ProbeAllSkips | src/app/lib/scanner/database-exposure.ts:140-195 | an iteration that reports nothing leaves the result of the others unchanged |
| DatabaseScanner.ProbeFailureIsSkipped | src/app/lib/scanner/database-exposure.ts:191-194 | a probe that threw contributes nothing and the later probes still run |
| DatabaseScanner.ProbeLoopShape | src/app/lib/scanner/database-exposure.ts:137-198 | at most three exposures per endpoint, all with source `endpoint_scan` and a url |
| DatabaseScanner.ScanDatabaseEndpoints | src/app/lib/scanner/database-exposure.ts:137-198 | at most 54 exposures over the 18 endpoints, all from the endpoint scan |
| DatabaseScanner.NetworkFindings | src/app/lib/scanner/database-exposure.ts:262-284 | at most two medium exposures per call: an `admin_interface` exactly when the url check holds, an `error_message` carrying the evidence exactly when the body check holds; no type twice |
| DatabaseScanner.NetworkFindingsCount | src/app/lib/scanner/database-exposure.ts:262-284 | each check of a call that holds is reported exactly once, one that fails not at all, and nothing else is reported |
| DatabaseScanner.CallExposures | src/app/lib/scanner/database-exposure.ts:258-285 | a missing url or body reads as ""; keyword and error tests decide the two findings exactly, each reported at most once |
| DatabaseScanner.MissingFieldsReportNothing | src/app/lib/scanner/database-exposure.ts:259-260 | a call with neither url nor body is not reported |
| DatabaseScanner.AnalyzeNetworkForDatabase | src/app/lib/scanner/database-exposure.ts:255-288 | at most two exposures per call, all medium from `network_analysis` |
| DatabaseScanner.AnalyzeNetworkAppend | src/app/lib/scanner/database-exposure.ts:258-285 | the traffic scan over two lists of calls reports the first list's exposures, then the second's |
| DatabaseScanner.AnalyzeNetworkOne | src/app/lib/scanner/database-exposure.ts:258-285 | the traffic scan of one call reports exactly that call's findings, so every call's findings appear in call order |
| DatabaseScanner.TallySeverities | src/app/lib/scanner/database-exposure.ts:212-233 | each counter equals the number of exposures of its severity, and the four add up to the number of exposures |
| DatabaseScanner.TallyKinds | src/app/lib/scanner/database-exposure.ts:211-218 | a type is a key exactly when it occurs, its value is its number of occurrences, and the values sum to the number of exposures |
| DatabaseScanner.DistinctCountsOnce | src/app/lib/scanner/database-exposure.ts:211-218 | in a list without a repeated type, a type is counted once when it is reported and not at all otherwise |
| DatabaseScanner.Tally | src/app/lib/scanner/database-exposure.ts:211-252 | the result keeps the exposures; the total is their number; the severity counts sum to the total; the type summary sums to the total |
| DatabaseScanner.AnalyzeDatabaseSecurity | src/app/lib/scanner/database-exposure.ts:200-253 | the exposures are script, then endpoint, then network findings, without deduplication, with the tallies above |
| DomainVerification.NormalizeDomain | src/app/lib/verification/domain-verification.ts:223-225 | the result is lower case; a lower-cased input starting with `www.` loses exactly that prefix; any other input is only lower-cased |
| DomainVerification.NormalizeStripsOnce | src/app/lib/verification/domain-verification.ts:223-225 | `www.` followed by any text normalizes to that text lower-cased, even when it begins with another `www.` |
| DomainVerification.NormalizeIgnoresCase | src/app/lib/verification/domain-verification.ts:223-225 | normalizing does not depend on the case of the input |
| DomainVerification.KeysAgree | src/app/lib/verification/domain-verification.ts:11 | the store key and the lookup key agree exactly when the lower-cased hostname does not start with `www.` |
| DomainVerification.ExtractDomain | src/app/lib/verification/domain-verification.ts:215-221 | the lookup key is the hostname with each character lower-cased, position by position |
| DomainVerification.GenerateVerificationToken | src/app/lib/verification/domain-verification.ts:9-21 | the token is stored under the normalized domain with that domain, its user and an expiry 24 hours on; every other key and the verified store are unchanged; the token issued is returned |
| DomainVerification.ExpectedToken | src/app/lib/verification/domain-verification.ts:62-64 | the token expected for a key: none when absent or empty |
| DomainVerification.IssuedTokenIsExpected | src/app/lib/verification/domain-verification.ts:9-21 | a non-empty token just issued is the one expected under the normalized key |
| DomainVerification.WwwTokenNotFound | src/app/lib/verification/domain-verification.ts:11 | issuing a token for a `www.` hostname leaves what the lookup under that hostname finds unchanged |
| DomainVerification.Flatten | src/app/lib/verification/domain-verification.ts:69 | a string is a flattened record exactly when it is a chunk of some TXT record |
| DomainVerification.VerifyDnsTxtRecord | src/app/lib/verification/domain-verification.ts:59-85 | a `dns` module that fails to load fails first, whatever the token; otherwise verified exactly when a token is expected and some record chunk starts with the prefix and contains the token; the fixed messages for no token, lookup failure and no match |
| DomainVerification.DnsRecordAccepted | src/app/lib/verification/domain-verification.ts:71-77 | a chunk that is the prefix followed by the token verifies by DNS |
| DomainVerification.RenderIsMatched | src/app/lib/verification/domain-verification.ts:108 | wherever the rendering of a pattern (gaps before words) stands in a text, the pattern matches there |
| DomainVerification.MetaTagFound | src/app/lib/verification/domain-verification.ts:108-110 | the tag `<meta name="cyberscope-verification" content="TOKEN">` is found wherever it stands in a page |
| DomainVerification.VerifyHtmlMetaTag | src/app/lib/verification/domain-verification.ts:86-118 | verified exactly when a token is expected, the page answered 2xx and its html carries the tag; the fixed messages for each failure |
| DomainVerification.VerifyFile | src/app/lib/verification/domain-verification.ts:120-152 | verified exactly when a token is expected, the file answered 2xx and its trimmed body equals the token; the fixed messages with the well-known url |
| DomainVerification.MarkDomainAsVerified | src/app/lib/verification/domain-verification.ts:227-232 | records the user and time under the key; tokens and every other record unchanged |
| DomainVerification.VerifyDomain | src/app/lib/verification/domain-verification.ts:24-57 | DNS, then meta tag, then file; the first success is returned and is the only path that writes the verified store; failure leaves both stores as they were with the fixed message; tokens never change |
| DomainVerification.NoTokenNoVerification | src/app/lib/verification/domain-verification.ts:62-66 | with no token under the looked-up key, all three methods fail with the no-token message (DNS with its load error when the module did not load), and verification fails without touching the stores |
| DomainVerification.IsDomainVerified | src/app/lib/verification/domain-verification.ts:154-165 | true exactly when a record exists and it is not the case that both the requester and the record name a user and they differ |
| DomainVerification.VerificationGrantsAccess | src/app/lib/verification/domain-verification.ts:154-165 | after a successful verification, the user it was made for is granted access, and so is anyone when it was made without a user |
| DomainVerification.OtherUserRefused | src/app/lib/verification/domain-verification.ts:160-162 | a record naming one user refuses a different named user |
| DomainVerification.MetaTagVerifies | src/app/lib/verification/domain-verification.ts:24-38 | with a token expected, a failed DNS lookup and the tag on the page, verification succeeds by meta tag and its user is granted access |
| DomainVerification.IssueThenMetaTag | src/app/lib/verification/domain-verification.ts:9-38 | issuing a token for a hostname without `www.` and publishing the tag verifies the domain and grants its user access |
| DomainVerification.CheckRateLimit | src/app/lib/verification/domain-verification.ts:167-176 | every request passes |
| DomainVerification.IsWhitelistedDomain | src/app/lib/verification/domain-verification.ts:178-189 | exact membership of the lower-cased hostname in the four-name list |
| DomainVerification.WwwNeverWhitelisted | src/app/lib/verification/domain-verification.ts:178-189 | a hostname starting with `www.` is never allow-listed, since nothing strips the prefix |
| DomainVerification.WhitelistIgnoresCase | src/app/lib/verification/domain-verification.ts:178-189 | the allow-list test does not depend on the case of the hostname |
| DomainVerification.IsSuspiciousDomain | src/app/lib/verification/domain-verification.ts:192-213 | true exactly when the lower-cased hostname matches one of the eleven deny patterns |
| DomainVerification.SuspicionIgnoresCase | src/app/lib/verification/domain-verification.ts:192-213 | the deny test does not depend on the case of the hostname |
| DomainVerification.Private172Means | src/app/lib/verification/domain-verification.ts:209 | the private-range pattern matches at a position exactly when `172.N.` stands there for some N from 16 to 31 |
| DomainVerification.OctetIsPrivate172 | src/app/lib/verification/domain-verification.ts:209 | `172.N.` for N from 16 to 31 matches the private-range pattern |
| DomainVerification.Private172HasOctet | src/app/lib/verification/domain-verification.ts:209 | a match of the private-range pattern is `172.N.` for some N from 16 to 31 |
| ScanRoute.CheckGate | src/app/api/scan/route.ts:14-54 | a body that cannot be read is a 500 failed scan; otherwise 400 exactly when the url is missing, empty, not a string or invalid; 429 never; 403 suspicious exactly when the deny test holds; past those gates, admitted exactly when verified or allow-listed, with both flags; otherwise 403 naming the extracted domain |
| ScanRoute.SuspiciousAlwaysRefused | src/app/api/scan/route.ts:32-40 | a suspicious hostname is refused with 403 whatever the stores hold, even when verified or allow-listed |
| ScanRoute.WhitelistedAdmitted | src/app/api/scan/route.ts:42-54 | an allow-listed, non-suspicious hostname is admitted for every store, including one with no records |
| ScanRoute.VerifiedOwnerAdmitted | src/app/api/scan/route.ts:42-54 | after a successful verification the owner, or anyone when it named no user, is admitted unless suspicious |
| ScanRoute.OtherUserNeedsVerification | src/app/api/scan/route.ts:45-53 | a hostname verified by another named user and not allow-listed is refused, naming the extracted domain |
| ScanRoute.Extract | src/app/api/scan/route.ts:80-93 | records carry no size or credentials; external ones have a source and no content; inline ones are named `location#inline-k` after their position k and have non-blank content |
| ScanRoute.ExtractIsFilter | src/app/api/scan/route.ts:80-93 | extraction keeps exactly the elements with a source or non-blank text, in order, and the k-th record describes the k-th kept element |
| ScanRoute.ExternalIffSource | src/app/api/scan/route.ts:81-86 | a kept element becomes an external record exactly when it has a source |
| ScanRoute.Process | src/app/api/scan/route.ts:104-155 | the record pushed is the script with only size, content and credentials changed; skipped externals are dropped; an inline script without text is kept as it is, one with text is dropped exactly when over 2 MiB and otherwise gets its size and detected credentials; a failed fetch keeps the script with no credentials; an empty or missing fetch text keeps the script as it is; fetched text over 2 MiB is dropped, otherwise the script gets its size, the text and its detected credentials |
| ScanRoute.KeptIsSubsequence | src/app/api/scan/route.ts:104-156 | the kept records are the processed forms of an increasing selection of the scripts, containing every script whose turn pushes a record |
| ScanRoute.CountCredentials | src/app/api/scan/route.ts:122-124 | after counting, the summary tallies the credentials seen plus the new ones by type, and its sum grows by their number |
| ScanRoute.FilterScripts | src/app/api/scan/route.ts:100-156 | the loop keeps exactly the records its turns push; the total is the number of credentials on the kept records; the summary tallies them by type and its values sum to the total |
| ScanRoute.Post | src/app/api/scan/route.ts:14-185 | an unreadable body or a closed gate answers without loading the page; a failed load is a 500; otherwise the answer lists the kept scripts, with script and network-call totals equal to the list lengths, the credential total, and a summary that sums to it |
| Common.JoinLines | src/app/lib/scanner/database-exposure.ts:363 | joining the lines of a text with newlines gives the text back |

## Left out

- Regular expressions of the rule table and of the SQL indicators: a `Matcher` input stands for `content.match(re)`. The small expressions the helpers use are written out as predicates: credential assignment, `ora-\d+`, the meta tag and the private 172 range.
- Lower-casing and white space are ASCII only. `toLowerCase`, `trim` and `\s` also cover other Unicode characters.
- Common.Truncate: lengths and cuts count Unicode characters. JavaScript's `length` and `substring` count UTF-16 code units, so text with characters outside the Basic Multilingual Plane (emoji) is cut at another place, and `substring` can split a surrogate pair, which a Dafny string cannot hold.
- DatabaseScanner.TableExposures: its evidence bound of 103 is in Unicode characters, not UTF-16 code units, for the reason given under `Common.Truncate`.
- DatabaseScanner.CredentialEvidence: its line bound of 83 is in Unicode characters, not UTF-16 code units, as for `Common.Truncate`.
- DatabaseScanner.ErrorEvidence: its line bound of 103 is in Unicode characters, not UTF-16 code units, as for `Common.Truncate`.
- The token is put into the meta-tag expression unescaped, so its own metacharacters would act as regular-expression syntax. The model treats the token as literal text matched without regard to case.
- Token expiry: `expiresAt` is recorded but never checked by the code, so no operation looks at it.
- The DNS lookup, the page and file fetches, URL parsing, `isValidUrl`, `crypto.randomBytes` and the clock are inputs. A failure to load the `dns` module is the `DnsUnavailable` answer, which fails before the token is looked up.
- `CheckRateLimit` reads the forwarded-for header and computes a key, window and limit that it never uses, so it always passes. The 429 answer is unreachable.
- The two module-level maps are shared by concurrent requests. The model has one sequential state.
- The browser (launch, user agent, viewport, navigation timeouts, the `finally` close), console logging, the `OPTIONS` handler, the history route and every UI component are not part of this model.
- `detectCredentials`, `shouldSkipScript`, `getScriptSize`, `analyzeNetworkCalls` and `setupNetworkMonitoring` belong to modules that are not part of this model. They are inputs.
- The scan route never fills the answer fields `databaseSecurity`, `seoAnalysis` and `criticalAlerts`, nor the optional `id`, `userId` and `cliMode`. They are not modelled, and neither is the SEO analyzer.
- `ScanRoute.Post`: the request body's `userId` is a string or absent. A non-string user id, which the code would compare as a truthy value, is not modelled. Each external fetch outcome is given per position of the extracted list.
- ScanRoute.CountCredentials: the summary is a map. The code's summary is a plain object, so a credential type naming an `Object.prototype` member (`toString`, `constructor`, `__proto__`) reads the inherited member: `(summary[t] || 0) + 1` concatenates a string, or the write to `__proto__` is lost. For such types the tally and the sum do not hold in the code.
- ScanRoute.FilterScripts: the per-type summary and its sum to the total hold only for credential types that are not `Object.prototype` members, as for `ScanRoute.CountCredentials`.
- `ScanRoute.FilterScripts`: its scripts carry no credentials on entry, as extraction produces them. The code, given a script that already had credentials and a fetch with empty text, would keep them without counting them.
- Exceptions thrown by `detectCredentials` or `getScriptSize` are not modelled: these are total functions here. A fetch that throws is the `Threw` outcome.
- `DomainVerification.VerifyDomain`: the caught error text is the parser's "Invalid URL format" only; other exceptions of the methods are their own failure answers.
- `DatabaseScanner.DetectDatabaseExposures` instantiates `ScanContent` with the rule table and indicator list; its properties are those of `ScanContent`.
- `getExposureDescription` and `getRecommendation` fall back to a generic text for an unknown type, which cannot occur with the closed `ExposureType`.
