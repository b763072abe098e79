/** The domain ownership verifier of src/app/lib/verification/domain-verification.ts:
    a token store and a verified-domain store, three verification methods
    tried in order, and the allow-list and deny-pattern gates.

    The two module-level maps of the source are one immutable `Stores` value
    threaded through the operations. The random token, the clock, the URL
    parser's hostname, the DNS answer and the fetched page and file are
    inputs. */
module DomainVerification {
  import opened Common
  import opened Cyberscope

  /** An entry of the verified-domain store. */
  datatype VerifiedRecord = VerifiedRecord(userId: Option<string>, verifiedAt: int)

  /** `verificationTokens` and `verifiedDomains`. */
  datatype Stores = Stores(tokens: map<string, VerificationToken>, verified: map<string, VerifiedRecord>)

  /** What `generateVerificationToken` leaves behind and returns. */
  datatype Issued = Issued(stores: Stores, token: string)

  /** What `verifyDomain` leaves behind and returns. */
  datatype Verification = Verification(stores: Stores, result: DomainVerificationResult)

  /** The DNS side of `verifyDNSTxtRecord`: the `dns` module failed to load
      (this happens before the token is looked up), or the answer of
      `dns.resolveTxt` -- the error it threw, or the records, each a list of chunks. */
  datatype DnsAnswer = DnsUnavailable(reason: string) | DnsFailed(reason: string) | TxtRecords(records: seq<seq<string>>)

  /** The answer of a `fetch` and the reading of its body, or the error thrown. */
  datatype FetchAnswer = FetchFailed(reason: string) | Fetched(status: nat, body: string)

  /** Milliseconds a token is issued for. Nothing checks it. */
  const TokenLifetime: int := 24 * 60 * 60 * 1000

  const DnsPrefix := "cyberscope-verification="
  const MetaName := "cyberscope-verification"

  const DnsMethod := "DNS TXT Record"
  const MetaMethod := "HTML Meta Tag"
  const FileMethod := "Verification File"

  const NoTokenMessage := "No verification token found for this domain"
  const AllFailedMessage := "Domain verification failed. Please use one of the verification methods."
  const InvalidUrlMessage := "Verification error: Invalid URL format"

  const Whitelist: seq<string> := ["example.com", "httpbin.org", "jsonplaceholder.typicode.com", "prepverse.xyz"]

  function Verified(methodName: string): DomainVerificationResult {
    DomainVerificationResult(true, Some(methodName), None)
  }

  function Failed(message: string): DomainVerificationResult {
    DomainVerificationResult(false, None, Some(message))
  }

  // ------------------------------------------------------------ domain keys

  /** `normalizeDomain`: lower case, then one leading "www." removed. */
  function NormalizeDomain(domain: string): (r: string)
    ensures IsLowerCase(r)
    ensures StartsWith(Lower(domain), "www.") ==> Lower(domain) == "www." + r
    ensures !StartsWith(Lower(domain), "www.") ==> r == Lower(domain)
  {
    var lowered := Lower(domain);
    LowerIsLowerCase(domain);
    if StartsWith(lowered, "www.") then lowered[4..] else lowered
  }

  /** `extractDomain` after the URL parser: the hostname, lower-cased. */
  function ExtractDomain(hostname: string): (r: string)
    ensures IsLowerCase(r) && |r| == |hostname|
    ensures forall i :: 0 <= i < |r| ==> r[i] == LowerChar(hostname[i])
  {
    LowerIsLowerCase(hostname);
    Lower(hostname)
  }

  /** Exactly one "www." is removed, whatever follows it. */
  lemma NormalizeStripsOnce(rest: string)
    ensures NormalizeDomain("www." + rest) == Lower(rest)
  {
    LowerConcat("www.", rest);
    assert Lower("www.") == "www.";
    assert StartsWith(Lower("www." + rest), "www.");
    assert ("www." + Lower(rest))[4..] == Lower(rest);
  }

  /** Normalizing ignores case. */
  lemma NormalizeIgnoresCase(domain: string)
    ensures NormalizeDomain(Lower(domain)) == NormalizeDomain(domain)
  {
    LowerIsLowerCase(domain);
    LowerOfLowerCase(Lower(domain));
  }

  /** The key a token is stored under and the key it is looked up under agree
      exactly when the hostname does not begin with "www.". */
  lemma KeysAgree(hostname: string)
    ensures NormalizeDomain(hostname) == ExtractDomain(hostname) <==> !StartsWith(Lower(hostname), "www.")
  {
    if StartsWith(Lower(hostname), "www.") {
      assert |NormalizeDomain(hostname)| < |ExtractDomain(hostname)|;
    }
  }

  // ------------------------------------------------------------ token store

  /** `generateVerificationToken` with the random token and the clock as inputs. */
  function GenerateVerificationToken(st: Stores, domain: string, userId: Option<string>, token: string, now: int): (r: Issued)
    ensures r.token == token
    ensures var key := NormalizeDomain(domain);
      && key in r.stores.tokens
      && r.stores.tokens[key] == VerificationToken(key, token, now + TokenLifetime, userId)
      && (forall k :: k != key ==> (k in r.stores.tokens <==> k in st.tokens))
      && (forall k :: k != key && k in st.tokens ==> r.stores.tokens[k] == st.tokens[k])
    ensures r.stores.verified == st.verified
  {
    var key := NormalizeDomain(domain);
    Issued(Stores(st.tokens[key := VerificationToken(key, token, now + TokenLifetime, userId)], st.verified), token)
  }

  /** `verificationTokens.get(domain)?.token` as a condition: an absent entry
      and an empty token both count as no token. */
  function ExpectedToken(st: Stores, domain: string): (r: Option<string>)
    ensures r.Some? <==> domain in st.tokens && st.tokens[domain].token != ""
    ensures r.Some? ==> r.value == st.tokens[domain].token
  {
    if domain in st.tokens && st.tokens[domain].token != "" then Some(st.tokens[domain].token) else None
  }

  /** A non-empty token just issued for a domain is the one expected under its normalized key. */
  lemma IssuedTokenIsExpected(st: Stores, domain: string, userId: Option<string>, token: string, now: int)
    requires token != ""
    ensures ExpectedToken(GenerateVerificationToken(st, domain, userId, token, now).stores, NormalizeDomain(domain)) == Some(token)
  {
  }

  /** A token issued for a "www." hostname is filed under the bare name, so
      the lookup under the hostname finds only what was there before. */
  lemma WwwTokenNotFound(st: Stores, hostname: string, userId: Option<string>, token: string, now: int)
    requires StartsWith(Lower(hostname), "www.")
    ensures ExpectedToken(GenerateVerificationToken(st, hostname, userId, token, now).stores, ExtractDomain(hostname))
         == ExpectedToken(st, ExtractDomain(hostname))
  {
    KeysAgree(hostname);
  }

  // ------------------------------------------------------------ DNS method

  /** `txtRecords.flat()` */
  function Flatten(records: seq<seq<string>>): (r: seq<string>)
    ensures forall x :: x in r <==> exists i :: 0 <= i < |records| && x in records[i]
    decreases |records|
  {
    if |records| == 0 then []
    else
      var rest := Flatten(records[1..]);
      assert forall i :: 1 <= i < |records| ==> records[i] == records[1..][i - 1];
      records[0] + rest
  }

  predicate DnsRecordMatches(record: string, token: string) {
    StartsWith(record, DnsPrefix) && Contains(record, token)
  }

  /** `verifyDNSTxtRecord` */
  function VerifyDnsTxtRecord(st: Stores, domain: string, dns: DnsAnswer): (r: DomainVerificationResult)
    ensures r.verified <==>
      && ExpectedToken(st, domain).Some? && dns.TxtRecords?
      && exists i, j :: 0 <= i < |dns.records| && 0 <= j < |dns.records[i]|
                     && DnsRecordMatches(dns.records[i][j], ExpectedToken(st, domain).value)
    ensures r.verified ==> r == Verified(DnsMethod)
    ensures dns.DnsUnavailable? ==> r == Failed("DNS verification failed: " + dns.reason)
    ensures !dns.DnsUnavailable? && ExpectedToken(st, domain).None? ==> r == Failed(NoTokenMessage)
    ensures ExpectedToken(st, domain).Some? && dns.DnsFailed? ==> r == Failed("DNS verification failed: " + dns.reason)
    ensures ExpectedToken(st, domain).Some? && dns.TxtRecords? && !r.verified ==> r == Failed("DNS TXT record not found or invalid")
    ensures !r.verified ==> r.methodName.None? && r.error.Some?
  {
    if dns.DnsUnavailable? then Failed("DNS verification failed: " + dns.reason)
    else match ExpectedToken(st, domain)
    case None => Failed(NoTokenMessage)
    case Some(token) =>
      match dns
      case DnsUnavailable(reason) => Failed("DNS verification failed: " + reason)
      case DnsFailed(reason) => Failed("DNS verification failed: " + reason)
      case TxtRecords(records) =>
        var flat := Flatten(records);
        if exists record :: record in flat && DnsRecordMatches(record, token) then Verified(DnsMethod)
        else Failed("DNS TXT record not found or invalid")
  }

  /** The record a site owner publishes is accepted, in any chunk of any record. */
  lemma DnsRecordAccepted(st: Stores, domain: string, records: seq<seq<string>>, i: nat, j: nat)
    requires ExpectedToken(st, domain).Some?
    requires i < |records| && j < |records[i]| && records[i][j] == DnsPrefix + ExpectedToken(st, domain).value
    ensures VerifyDnsTxtRecord(st, domain, TxtRecords(records)) == Verified(DnsMethod)
  {
    var token := ExpectedToken(st, domain).value;
    var record := DnsPrefix + token;
    assert record[..|DnsPrefix|] == DnsPrefix;
    assert record[|DnsPrefix|..] == token;
    ContainsAt(record, token, |DnsPrefix|);
    assert DnsRecordMatches(records[i][j], token);
  }

  // ------------------------------------------------------- meta tag method

  /** `response.ok` */
  predicate HttpOk(status: nat) {
    200 <= status <= 299
  }

  /** `lit` at position `i` of `s`, ignoring the case of ASCII letters. */
  predicate MatchesAt(s: string, i: nat, lit: string) {
    i + |lit| <= |s| && forall k :: 0 <= k < |lit| ==> LowerChar(s[i + k]) == LowerChar(lit[k])
  }

  /** A piece of a simple regular expression: literal text (matched ignoring
      case), a run of white space (`\s+`) or a quote mark (`["']`). */
  datatype Piece = Word(text: string) | Gap | QuoteMark

  /** The expression `verifyHTMLMetaTag` builds around the expected token. */
  function MetaPattern(token: string): seq<Piece> {
    [Word("<meta"), Gap, Word("name="), QuoteMark, Word(MetaName), QuoteMark,
     Gap, Word("content="), QuoteMark, Word(token), QuoteMark]
  }

  /** `pat` matches `s` from position `i`. A gap takes the whole run of
      white space; that is what the expression does whenever the piece after
      a gap cannot begin with white space, as in `MetaPattern`. */
  predicate MatchFrom(s: string, i: nat, pat: seq<Piece>)
    decreases |pat|
  {
    if |pat| == 0 then true
    else match pat[0]
      case Word(w) => MatchesAt(s, i, w) && MatchFrom(s, i + |w|, pat[1..])
      case QuoteMark => i < |s| && IsQuote(s[i]) && MatchFrom(s, i + 1, pat[1..])
      case Gap => i < |s| && IsSpace(s[i]) && MatchFrom(s, SkipSpaces(s, i), pat[1..])
  }

  /** `metaTagRegex.test(html)` */
  predicate HasMetaTag(html: string, token: string) {
    exists i :: 0 <= i < |html| && MatchFrom(html, i, MetaPattern(token))
  }

  /** Every gap is followed by a word that does not begin with white space. */
  predicate GapsBeforeWords(pat: seq<Piece>) {
    forall k :: 0 <= k < |pat| - 1 && pat[k].Gap? ==>
      pat[k + 1].Word? && |pat[k + 1].text| > 0 && !IsSpace(pat[k + 1].text[0])
  }

  /** The simplest text a pattern matches: one space per gap, `"` per quote mark. */
  function Render(pat: seq<Piece>): string
    decreases |pat|
  {
    if |pat| == 0 then ""
    else
      var head := match pat[0] case Word(w) => w case Gap => " " case QuoteMark => "\"";
      head + Render(pat[1..])
  }

  /** The tag a site owner puts in the page:
      <meta name="cyberscope-verification" content="TOKEN"> */
  function MetaTag(token: string): string {
    Render(MetaPattern(token)) + ">"
  }

  /** The rendering of `pat` stands in `s` at position `i`. */
  predicate RenderedAt(s: string, i: nat, pat: seq<Piece>) {
    i + |Render(pat)| <= |s| && s[i..i + |Render(pat)|] == Render(pat)
  }

  /** Two adjacent pieces of a slice are slices themselves. */
  lemma SliceSplit(s: string, i: nat, a: string, b: string)
    requires i + |a| + |b| <= |s| && s[i..i + |a| + |b|] == a + b
    ensures s[i..i + |a|] == a && s[i + |a|..i + |a| + |b|] == b
  {
    var whole := s[i..i + |a| + |b|];
    assert s[i..i + |a|] == whole[..|a|];
    assert s[i + |a|..i + |a| + |b|] == whole[|a|..];
  }

  /** A character-for-character occurrence matches whatever the case. */
  lemma MatchesWhereEqual(s: string, i: nat, lit: string)
    requires i + |lit| <= |s| && s[i..i + |lit|] == lit
    ensures MatchesAt(s, i, lit)
  {
    forall k | 0 <= k < |lit|
      ensures s[i + k] == lit[k]
    {
      assert s[i..i + |lit|][k] == s[i + k];
    }
  }

  /** The condition on gaps holds of every suffix of a pattern. */
  lemma GapsBeforeWordsTail(pat: seq<Piece>)
    requires |pat| > 0 && GapsBeforeWords(pat)
    ensures GapsBeforeWords(pat[1..])
  {
    forall k | 0 <= k < |pat[1..]| - 1 && pat[1..][k].Gap?
      ensures pat[1..][k + 1].Word? && |pat[1..][k + 1].text| > 0 && !IsSpace(pat[1..][k + 1].text[0])
    {
      assert pat[1..][k] == pat[k + 1] && pat[1..][k + 1] == pat[k + 2];
    }
  }

  /** A rendered pattern starting with a word: the word matches, the rest follows it. */
  lemma WordIsMatched(s: string, i: nat, pat: seq<Piece>)
    requires |pat| > 0 && pat[0].Word?
    requires RenderedAt(s, i, pat)
    ensures MatchesAt(s, i, pat[0].text)
    ensures RenderedAt(s, i + |pat[0].text|, pat[1..])
  {
    SliceSplit(s, i, pat[0].text, Render(pat[1..]));
    MatchesWhereEqual(s, i, pat[0].text);
  }

  /** A rendered pattern starting with a quote mark: a quote, then the rest. */
  lemma QuoteIsMatched(s: string, i: nat, pat: seq<Piece>)
    requires |pat| > 0 && pat[0].QuoteMark?
    requires RenderedAt(s, i, pat)
    ensures i < |s| && IsQuote(s[i])
    ensures RenderedAt(s, i + 1, pat[1..])
  {
    assert Render(pat) == "\"" + Render(pat[1..]);
    SliceSplit(s, i, "\"", Render(pat[1..]));
    assert s[i] == s[i..i + 1][0];
  }

  /** A rendered gap before a word is a single white-space character, and the
      run of white space ends there. */
  lemma GapIsMatched(s: string, i: nat, pat: seq<Piece>)
    requires |pat| > 0 && pat[0].Gap? && GapsBeforeWords(pat)
    requires RenderedAt(s, i, pat)
    ensures i < |s| && IsSpace(s[i])
    ensures RenderedAt(s, SkipSpaces(s, i), pat[1..])
  {
    var rest := Render(pat[1..]);
    assert Render(pat) == " " + rest;
    SliceSplit(s, i, " ", rest);
    assert s[i] == s[i..i + 1][0];
    if |pat| > 1 {
      var w := pat[1].text;
      assert rest == w + Render(pat[2..]);
      assert s[i + 1] == s[i + 1..i + 1 + |rest|][0];
      assert SkipSpaces(s, i + 1) == i + 1;
    }
  }

  /** One piece of a rendered pattern is matched, and the rendering of the
      rest stands where matching continues. */
  lemma NextMatched(s: string, i: nat, pat: seq<Piece>) returns (j: nat)
    requires |pat| > 0 && GapsBeforeWords(pat) && RenderedAt(s, i, pat)
    ensures RenderedAt(s, j, pat[1..])
    ensures MatchFrom(s, j, pat[1..]) ==> MatchFrom(s, i, pat)
  {
    match pat[0]
    case Word(w) =>
      WordIsMatched(s, i, pat);
      j := i + |w|;
    case QuoteMark =>
      QuoteIsMatched(s, i, pat);
      j := i + 1;
    case Gap =>
      GapIsMatched(s, i, pat);
      j := SkipSpaces(s, i);
  }

  /** Wherever the rendering of a pattern stands in a text, the pattern matches there. */
  lemma {:induction false} RenderIsMatched(s: string, i: nat, pat: seq<Piece>)
    requires GapsBeforeWords(pat) && RenderedAt(s, i, pat)
    ensures MatchFrom(s, i, pat)
    decreases |pat|
  {
    if |pat| > 0 {
      GapsBeforeWordsTail(pat);
      var j := NextMatched(s, i, pat);
      RenderIsMatched(s, j, pat[1..]);
    }
  }

  /** In the meta-tag expression each gap comes before a word. */
  lemma MetaPatternGaps(token: string)
    ensures GapsBeforeWords(MetaPattern(token))
  {
    assert "name="[0] == 'n' && "content="[0] == 'c';
  }

  /** The tag written by `MetaTag` is recognised wherever it stands in a page. */
  lemma MetaTagFound(before: string, token: string, after: string)
    ensures HasMetaTag(before + MetaTag(token) + after, token)
  {
    var rendered := Render(MetaPattern(token));
    var s := before + MetaTag(token) + after;
    var i := |before|;
    assert s == before + rendered + (">" + after);
    assert s[i..i + |rendered|] == rendered;
    MetaPatternGaps(token);
    RenderIsMatched(s, i, MetaPattern(token));
  }

  /** `verifyHTMLMetaTag`, with the fetch of the page as an input. */
  function VerifyHtmlMetaTag(st: Stores, domain: string, page: FetchAnswer): (r: DomainVerificationResult)
    ensures r.verified <==>
      ExpectedToken(st, domain).Some? && page.Fetched? && HttpOk(page.status)
      && HasMetaTag(page.body, ExpectedToken(st, domain).value)
    ensures r.verified ==> r == Verified(MetaMethod)
    ensures ExpectedToken(st, domain).None? ==> r == Failed(NoTokenMessage)
    ensures ExpectedToken(st, domain).Some? && page.FetchFailed? ==> r == Failed("HTML verification failed: " + page.reason)
    ensures ExpectedToken(st, domain).Some? && page.Fetched? && !HttpOk(page.status)
        ==> r == Failed("HTTP " + NatToString(page.status) + ": Could not fetch page")
    ensures ExpectedToken(st, domain).Some? && page.Fetched? && HttpOk(page.status) && !r.verified
        ==> r == Failed("HTML meta tag not found or invalid")
    ensures !r.verified ==> r.methodName.None? && r.error.Some?
  {
    match ExpectedToken(st, domain)
    case None => Failed(NoTokenMessage)
    case Some(token) =>
      match page
      case FetchFailed(reason) => Failed("HTML verification failed: " + reason)
      case Fetched(status, body) =>
        if !HttpOk(status) then Failed("HTTP " + NatToString(status) + ": Could not fetch page")
        else if HasMetaTag(body, token) then Verified(MetaMethod)
        else Failed("HTML meta tag not found or invalid")
  }

  // ------------------------------------------------------------ file method

  function VerificationUrl(domain: string): string {
    "https://" + domain + "/.well-known/cyberscope-verification.txt"
  }

  /** `verifyFile`, with the fetch of the well-known file as an input. */
  function VerifyFile(st: Stores, domain: string, file: FetchAnswer): (r: DomainVerificationResult)
    ensures r.verified <==>
      ExpectedToken(st, domain).Some? && file.Fetched? && HttpOk(file.status)
      && Trim(file.body) == ExpectedToken(st, domain).value
    ensures r.verified ==> r == Verified(FileMethod)
    ensures ExpectedToken(st, domain).None? ==> r == Failed(NoTokenMessage)
    ensures ExpectedToken(st, domain).Some? && file.FetchFailed? ==> r == Failed("File verification failed: " + file.reason)
    ensures ExpectedToken(st, domain).Some? && file.Fetched? && !HttpOk(file.status)
        ==> r == Failed("Verification file not found at " + VerificationUrl(domain))
    ensures ExpectedToken(st, domain).Some? && file.Fetched? && HttpOk(file.status) && !r.verified
        ==> r == Failed("Verification file content does not match token")
    ensures !r.verified ==> r.methodName.None? && r.error.Some?
  {
    match ExpectedToken(st, domain)
    case None => Failed(NoTokenMessage)
    case Some(token) =>
      match file
      case FetchFailed(reason) => Failed("File verification failed: " + reason)
      case Fetched(status, body) =>
        if !HttpOk(status) then Failed("Verification file not found at " + VerificationUrl(domain))
        else if Trim(body) == token then Verified(FileMethod)
        else Failed("Verification file content does not match token")
  }

  // ---------------------------------------------------------- verification

  /** `markDomainAsVerified` */
  function MarkDomainAsVerified(st: Stores, domain: string, userId: Option<string>, now: int): (r: Stores)
    ensures r.tokens == st.tokens
    ensures domain in r.verified && r.verified[domain] == VerifiedRecord(userId, now)
    ensures forall k :: k != domain ==> (k in r.verified <==> k in st.verified)
    ensures forall k :: k != domain && k in st.verified ==> r.verified[k] == st.verified[k]
  {
    Stores(st.tokens, st.verified[domain := VerifiedRecord(userId, now)])
  }

  /** `verifyDomain`. `hostname` is `None` when the URL does not parse. Each
      answer is only looked at when its method is reached. */
  function VerifyDomain(st: Stores, hostname: Option<string>, userId: Option<string>,
                        dns: DnsAnswer, page: FetchAnswer, file: FetchAnswer, now: int): (r: Verification)
    ensures r.stores.tokens == st.tokens
    ensures hostname.None? ==> r == Verification(st, Failed(InvalidUrlMessage))
    ensures hostname.Some? ==>
      var domain := ExtractDomain(hostname.value);
      var viaDns := VerifyDnsTxtRecord(st, domain, dns);
      var viaMeta := VerifyHtmlMetaTag(st, domain, page);
      var viaFile := VerifyFile(st, domain, file);
      && (r.result.verified <==> viaDns.verified || viaMeta.verified || viaFile.verified)
      && (viaDns.verified ==> r.result == viaDns)
      && (!viaDns.verified && viaMeta.verified ==> r.result == viaMeta)
      && (!viaDns.verified && !viaMeta.verified && viaFile.verified ==> r.result == viaFile)
      && (r.result.verified ==> r.stores == MarkDomainAsVerified(st, domain, userId, now))
      && (!r.result.verified ==> r == Verification(st, Failed(AllFailedMessage)))
  {
    match hostname
    case None => Verification(st, Failed(InvalidUrlMessage))
    case Some(host) =>
      var domain := ExtractDomain(host);
      var viaDns := VerifyDnsTxtRecord(st, domain, dns);
      if viaDns.verified then Verification(MarkDomainAsVerified(st, domain, userId, now), viaDns)
      else
        var viaMeta := VerifyHtmlMetaTag(st, domain, page);
        if viaMeta.verified then Verification(MarkDomainAsVerified(st, domain, userId, now), viaMeta)
        else
          var viaFile := VerifyFile(st, domain, file);
          if viaFile.verified then Verification(MarkDomainAsVerified(st, domain, userId, now), viaFile)
          else Verification(st, Failed(AllFailedMessage))
  }

  /** A truthy optional string: present and not empty. */
  predicate Given(o: Option<string>) {
    o.Some? && o.value != ""
  }

  /** `isDomainVerified` */
  function IsDomainVerified(st: Stores, hostname: string, userId: Option<string>): (r: bool)
    ensures var domain := ExtractDomain(hostname);
      r <==> domain in st.verified
             && !(Given(userId) && Given(st.verified[domain].userId) && st.verified[domain].userId != userId)
  {
    var domain := ExtractDomain(hostname);
    if domain !in st.verified then false
    else
      var record := st.verified[domain];
      if Given(userId) && Given(record.userId) && record.userId.value != userId.value then false
      else true
  }

  /** `checkRateLimit`: the client address is read but nothing is counted, so
      every request passes. */
  function CheckRateLimit(forwardedFor: Option<string>): (r: bool)
    ensures r
  {
    true
  }

  // ------------------------------------------------------------------ gates

  /** `isWhitelistedDomain`: exact membership of the lower-cased hostname. */
  function IsWhitelistedDomain(hostname: string): (r: bool)
    ensures r <==> exists k :: 0 <= k < |Whitelist| && ExtractDomain(hostname) == Whitelist[k]
  {
    ExtractDomain(hostname) in Whitelist
  }

  /** The second octet of a 172.16.0.0/12 address: 16 to 31, two digits. */
  predicate PrivateOctet(a: char, b: char) {
    || (a == '1' && '6' <= b <= '9')
    || (a == '2' && IsDigit(b))
    || (a == '3' && (b == '0' || b == '1'))
  }

  /** `/172\.(1[6-9]|2[0-9]|3[01])\./` matched at `i`. */
  predicate Private172At(d: string, i: nat) {
    i + 7 <= |d| && LitAt(d, i, "172.") && PrivateOctet(d[i + 4], d[i + 5]) && d[i + 6] == '.'
  }

  predicate HasPrivate172(d: string) {
    exists i :: 0 <= i < |d| && Private172At(d, i)
  }

  /** The deny patterns of `isSuspiciousDomain` on a lower-cased hostname. The
      case-insensitive ones are plain substring tests on lower-cased text. */
  predicate SuspiciousName(d: string) {
    || EndsWith(d, ".gov") || EndsWith(d, ".mil")
    || Contains(d, "bank") || Contains(d, "financial")
    || Contains(d, "hospital") || Contains(d, "health")
    || Contains(d, "localhost") || Contains(d, "127.0.0.1")
    || Contains(d, "192.168.") || Contains(d, "10.")
    || HasPrivate172(d)
  }

  /** `isSuspiciousDomain` */
  function IsSuspiciousDomain(hostname: string): (r: bool)
    ensures r <==> SuspiciousName(Lower(hostname))
  {
    SuspiciousName(ExtractDomain(hostname))
  }

  // ---------------------------------------------------------------- lemmas

  /** With no token under the looked-up key every method fails at once (the
      DNS method with its own message when the `dns` module did not load), and
      the verification fails without touching the stores. */
  lemma NoTokenNoVerification(st: Stores, hostname: string, userId: Option<string>,
                              dns: DnsAnswer, page: FetchAnswer, file: FetchAnswer, now: int)
    requires ExpectedToken(st, ExtractDomain(hostname)).None?
    ensures VerifyDnsTxtRecord(st, ExtractDomain(hostname), dns)
         == if dns.DnsUnavailable? then Failed("DNS verification failed: " + dns.reason) else Failed(NoTokenMessage)
    ensures VerifyHtmlMetaTag(st, ExtractDomain(hostname), page) == Failed(NoTokenMessage)
    ensures VerifyFile(st, ExtractDomain(hostname), file) == Failed(NoTokenMessage)
    ensures VerifyDomain(st, Some(hostname), userId, dns, page, file, now) == Verification(st, Failed(AllFailedMessage))
  {
  }

  /** A successful verification grants access to the user it was made for,
      and to anyone when it was made without a user. */
  lemma VerificationGrantsAccess(st: Stores, hostname: string, userId: Option<string>,
                                 dns: DnsAnswer, page: FetchAnswer, file: FetchAnswer, now: int,
                                 requester: Option<string>)
    requires VerifyDomain(st, Some(hostname), userId, dns, page, file, now).result.verified
    requires requester == userId || !Given(userId)
    ensures IsDomainVerified(VerifyDomain(st, Some(hostname), userId, dns, page, file, now).stores, hostname, requester)
  {
  }

  /** A grant recorded for one user is refused to a different, named user. */
  lemma OtherUserRefused(st: Stores, hostname: string, requester: Option<string>)
    requires ExtractDomain(hostname) in st.verified
    requires Given(requester) && Given(st.verified[ExtractDomain(hostname)].userId)
    requires st.verified[ExtractDomain(hostname)].userId != requester
    ensures !IsDomainVerified(st, hostname, requester)
  {
  }

  /** With a token expected for the hostname, a failed DNS lookup and the meta
      tag on the page, the domain is verified by the meta tag and its owner let through. */
  lemma MetaTagVerifies(st: Stores, hostname: string, userId: Option<string>, token: string,
                        dnsError: string, before: string, after: string, file: FetchAnswer, now: int)
    requires ExpectedToken(st, ExtractDomain(hostname)) == Some(token)
    ensures var page := Fetched(200, before + MetaTag(token) + after);
      var v := VerifyDomain(st, Some(hostname), userId, DnsFailed(dnsError), page, file, now);
      && v.result == Verified(MetaMethod)
      && IsDomainVerified(v.stores, hostname, userId)
  {
    MetaTagFound(before, token, after);
  }

  /** Issuing a token for a hostname without "www." and then publishing the
      meta tag on the page verifies the domain by the meta tag when the DNS
      lookup fails, and the owner is then let through. */
  lemma IssueThenMetaTag(st: Stores, hostname: string, userId: Option<string>, token: string, issuedAt: int,
                         dnsError: string, before: string, after: string, file: FetchAnswer, now: int)
    requires token != "" && !StartsWith(Lower(hostname), "www.")
    ensures var issued := GenerateVerificationToken(st, hostname, userId, token, issuedAt).stores;
      var page := Fetched(200, before + MetaTag(token) + after);
      var v := VerifyDomain(issued, Some(hostname), userId, DnsFailed(dnsError), page, file, now);
      && v.result == Verified(MetaMethod)
      && IsDomainVerified(v.stores, hostname, userId)
  {
    var issued := GenerateVerificationToken(st, hostname, userId, token, issuedAt).stores;
    KeysAgree(hostname);
    IssuedTokenIsExpected(st, hostname, userId, token, issuedAt);
    MetaTagVerifies(issued, hostname, userId, token, dnsError, before, after, file, now);
  }

  /** No allow-listed name begins with "www.", so a "www." hostname is never allow-listed. */
  lemma WwwNeverWhitelisted(hostname: string)
    requires StartsWith(Lower(hostname), "www.")
    ensures !IsWhitelistedDomain(hostname)
  {
    var d := ExtractDomain(hostname);
    assert d[0] == 'w';
    assert forall k :: 0 <= k < |Whitelist| ==> Whitelist[k][0] != 'w';
  }

  /** The allow-list ignores case. */
  lemma WhitelistIgnoresCase(hostname: string)
    ensures IsWhitelistedDomain(Lower(hostname)) == IsWhitelistedDomain(hostname)
  {
    LowerIsLowerCase(hostname);
    LowerOfLowerCase(Lower(hostname));
  }

  /** The deny test ignores case. */
  lemma SuspicionIgnoresCase(hostname: string)
    ensures IsSuspiciousDomain(Lower(hostname)) == IsSuspiciousDomain(hostname)
  {
    LowerIsLowerCase(hostname);
    LowerOfLowerCase(Lower(hostname));
  }

  /** A number from 10 to 99 is written with two digits. */
  lemma TwoDigits(n: nat)
    requires 10 <= n < 100
    ensures NatToString(n) == [DigitChar(n / 10), DigitChar(n % 10)]
  {
  }

  /** The address text "172.<n>." for a second octet `n`. */
  function Private172Text(n: nat): string {
    "172." + NatToString(n) + "."
  }

  /** Seven characters at `i`, split as the pattern reads them. */
  lemma SevenAt(d: string, i: nat)
    requires i + 7 <= |d|
    ensures d[i..][..7] == d[i..i + 4] + [d[i + 4], d[i + 5]] + [d[i + 6]]
  {
    assert d[i..][..7] == d[i..i + 7];
  }

  /** An address matched by the 172 pattern is "172.<n>." for an `n` from 16 to 31. */
  lemma Private172HasOctet(d: string, i: nat)
    requires Private172At(d, i)
    ensures exists n :: 16 <= n <= 31 && LitAt(d, i, Private172Text(n))
  {
    var n := (d[i + 4] as int - '0' as int) * 10 + (d[i + 5] as int - '0' as int);
    assert 16 <= n <= 31;
    TwoDigits(n);
    assert DigitChar(n / 10) == d[i + 4] && DigitChar(n % 10) == d[i + 5];
    SevenAt(d, i);
    assert d[i..i + 4] == d[i..][..4];
    assert d[i..][..7] == Private172Text(n);
  }

  /** "172.<n>." for an `n` from 16 to 31 is matched by the 172 pattern. */
  lemma OctetIsPrivate172(d: string, i: nat, n: nat)
    requires 16 <= n <= 31 && LitAt(d, i, Private172Text(n))
    ensures Private172At(d, i)
  {
    TwoDigits(n);
    var text := Private172Text(n);
    assert |text| == 7;
    SevenAt(d, i);
    assert d[i..i + 4] == text[..4] == "172.";
    assert d[i..][..4] == d[i..i + 4];
    assert d[i + 4] == text[4] == DigitChar(n / 10);
    assert d[i + 5] == text[5] == DigitChar(n % 10);
    assert d[i + 6] == text[6] == '.';
  }

  /** The 172 pattern accepts exactly the second octets 16 to 31. */
  lemma Private172Means(d: string, i: nat)
    ensures Private172At(d, i) <==> exists n :: 16 <= n <= 31 && LitAt(d, i, Private172Text(n))
  {
    if Private172At(d, i) {
      Private172HasOctet(d, i);
    }
    if exists n :: 16 <= n <= 31 && LitAt(d, i, Private172Text(n)) {
      var n :| 16 <= n <= 31 && LitAt(d, i, Private172Text(n));
      OctetIsPrivate172(d, i, n);
    }
  }
}
