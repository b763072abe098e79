/** The scan endpoint, after src/app/api/scan/route.ts: the sequence of
    gates a request passes, the extraction of the page's scripts, the pass
    that filters them and tallies their credentials, and the counters of the
    answer. The browser, the loaded page, the script fetches and the modules
    the route imports that are not part of this model (credentials, filters,
    utils, network) are inputs. */
module ScanRoute {
  import opened Common
  import opened Cyberscope
  import DV = DomainVerification

  // ------------------------------------------------------------------ gate

  /** The fields `POST` reads from a request: `url` and `userId` of the JSON
      body (`None` when absent or not a string) and the forwarded-for header;
      `Unreadable` when the body is not JSON or cannot be destructured (`null`),
      so that reading it throws. */
  datatype ScanRequest =
    | ScanRequest(url: Option<string>, userId: Option<string>, forwardedFor: Option<string>)
    | Unreadable

  /** The decision of the gate sequence. */
  datatype Gate =
    | UnreadableBody
    | InvalidUrl
    | RateLimited
    | SuspiciousDomain
    | VerificationRequired(domain: string)
    | HostnameError
    | Admitted(verified: bool, whitelisted: bool)

  /** The HTTP status each decision answers with; an unreadable body and the
      hostname error are exceptions (of `request.json()` or the destructuring,
      and of `extractDomain`), caught as a failed scan. */
  function GateStatus(g: Gate): nat {
    match g
    case UnreadableBody => 500
    case InvalidUrl => 400
    case RateLimited => 429
    case SuspiciousDomain => 403
    case VerificationRequired(_) => 403
    case HostnameError => 500
    case Admitted(_, _) => 200
  }

  /** The `error` text of each refusal. */
  function GateError(g: Gate): Option<string> {
    match g
    case UnreadableBody => Some(ScanFailedError)
    case InvalidUrl => Some("Invalid URL provided")
    case RateLimited => Some("Rate limit exceeded. Please try again later.")
    case SuspiciousDomain => Some("This domain cannot be scanned for security reasons.")
    case VerificationRequired(_) => Some("Domain verification required. Please verify domain ownership first.")
    case HostnameError => Some(ScanFailedError)
    case Admitted(_, _) => None
  }

  const ScanFailedError := "Failed to scan the website"

  /** `!url || typeof url !== 'string' || !isValidUrl(url)` does not hold. */
  predicate UrlAccepted(req: ScanRequest, valid: bool) {
    req.ScanRequest? && req.url.Some? && req.url.value != "" && valid
  }

  /** The gates of `POST`, in order. `valid` is `isValidUrl(url)` and
      `hostname` the host name of the parsed URL, `None` when parsing throws. */
  function CheckGate(st: DV.Stores, req: ScanRequest, valid: bool, hostname: Option<string>): (r: Gate)
    ensures r == UnreadableBody <==> req.Unreadable?
    ensures r == InvalidUrl <==> req.ScanRequest? && !UrlAccepted(req, valid)
    ensures r != RateLimited
    ensures r == HostnameError <==> UrlAccepted(req, valid) && hostname.None?
    ensures r == SuspiciousDomain <==>
      UrlAccepted(req, valid) && hostname.Some? && DV.SuspiciousName(Lower(hostname.value))
    ensures r.Admitted? ==>
      && UrlAccepted(req, valid)
      && hostname.Some?
      && r.verified == DV.IsDomainVerified(st, hostname.value, req.userId)
      && r.whitelisted == DV.IsWhitelistedDomain(hostname.value)
      && (r.verified || r.whitelisted)
    ensures r.VerificationRequired? ==> hostname.Some? && r.domain == Lower(hostname.value)
    ensures UrlAccepted(req, valid) && hostname.Some? && !DV.SuspiciousName(Lower(hostname.value)) ==>
      (r.Admitted? <==> DV.IsDomainVerified(st, hostname.value, req.userId) || DV.IsWhitelistedDomain(hostname.value))
  {
    if req.Unreadable? then UnreadableBody
    else if !UrlAccepted(req, valid) then InvalidUrl
    else if !DV.CheckRateLimit(req.forwardedFor) then RateLimited
    else match hostname
      case None => HostnameError
      case Some(host) =>
        if DV.IsSuspiciousDomain(host) then SuspiciousDomain
        else
          var verified := DV.IsDomainVerified(st, host, req.userId);
          var whitelisted := DV.IsWhitelistedDomain(host);
          if !verified && !whitelisted then VerificationRequired(DV.ExtractDomain(host))
          else Admitted(verified, whitelisted)
  }

  /** A suspicious hostname is refused whatever the stores hold: the deny
      test comes before the verification and allow-list tests. */
  lemma SuspiciousAlwaysRefused(st: DV.Stores, req: ScanRequest, valid: bool, host: string)
    requires UrlAccepted(req, valid) && DV.IsSuspiciousDomain(host)
    ensures CheckGate(st, req, valid, Some(host)) == SuspiciousDomain
    ensures GateStatus(CheckGate(st, req, valid, Some(host))) == 403
  {
  }

  /** An allow-listed hostname that is not suspicious is admitted without any
      verification record, for every state of the stores. */
  lemma WhitelistedAdmitted(st: DV.Stores, req: ScanRequest, valid: bool, host: string)
    requires UrlAccepted(req, valid) && !DV.IsSuspiciousDomain(host) && DV.IsWhitelistedDomain(host)
    ensures CheckGate(st, req, valid, Some(host)).Admitted?
    ensures CheckGate(DV.Stores(map[], map[]), req, valid, Some(host)) == Admitted(false, true)
  {
    assert !DV.IsDomainVerified(DV.Stores(map[], map[]), host, req.userId);
  }

  /** After a successful verification the owner, or anyone when it was made
      without a user, is admitted unless the hostname is suspicious. */
  lemma VerifiedOwnerAdmitted(st: DV.Stores, host: string, owner: Option<string>,
                              dns: DV.DnsAnswer, page: DV.FetchAnswer, file: DV.FetchAnswer, now: int,
                              req: ScanRequest, valid: bool)
    requires DV.VerifyDomain(st, Some(host), owner, dns, page, file, now).result.verified
    requires UrlAccepted(req, valid) && !DV.IsSuspiciousDomain(host)
    requires req.userId == owner || !DV.Given(owner)
    ensures CheckGate(DV.VerifyDomain(st, Some(host), owner, dns, page, file, now).stores, req, valid, Some(host))
            == Admitted(true, DV.IsWhitelistedDomain(host))
  {
    DV.VerificationGrantsAccess(st, host, owner, dns, page, file, now, req.userId);
  }

  /** A hostname verified by one user, not allow-listed, is refused to a
      different named user with the extracted domain in the answer. */
  lemma OtherUserNeedsVerification(st: DV.Stores, req: ScanRequest, valid: bool, host: string)
    requires UrlAccepted(req, valid) && !DV.IsSuspiciousDomain(host) && !DV.IsWhitelistedDomain(host)
    requires DV.ExtractDomain(host) in st.verified
    requires DV.Given(req.userId) && DV.Given(st.verified[DV.ExtractDomain(host)].userId)
    requires st.verified[DV.ExtractDomain(host)].userId != req.userId
    ensures CheckGate(st, req, valid, Some(host)) == VerificationRequired(DV.ExtractDomain(host))
  {
    DV.OtherUserRefused(st, host, req.userId);
  }

  // ------------------------------------------------------------ extraction

  /** A `<script>` element: its `src` property ("" when it has none) and its text. */
  datatype ScriptElement = ScriptElement(src: string, text: string)

  /** The element yields a record: it has a source, or text that is not blank. */
  predicate IsScript(e: ScriptElement) {
    e.src != "" || Trim(e.text) != ""
  }

  /** The record made of a script element when `index` records precede it. */
  function Describe(e: ScriptElement, location: string, index: nat): ScannedScript {
    if e.src != "" then ScannedScript(e.src, External, None, None, None)
    else ScannedScript(location + "#inline-" + NatToString(index), Inline, Some(e.text), None, None)
  }

  /** What extraction produces: records without size or credentials yet;
      external ones with a source and no content; inline ones named after
      their position in the list, with non-blank content. */
  predicate ExtractedForm(r: seq<ScannedScript>, location: string) {
    forall k :: 0 <= k < |r| ==> RecordForm(r[k], location, k)
  }

  /** The form of the k-th extracted record. */
  predicate RecordForm(x: ScannedScript, location: string, k: nat) {
    && x.size.None? && x.credentials.None?
    && (x.kind == External ==> x.url != "" && x.content.None?)
    && (x.kind == Inline ==>
          x.url == location + "#inline-" + NatToString(k) &&
          x.content.Some? && Trim(x.content.value) != "")
  }

  /** The extraction run in the page, over the elements in document order;
      `location` is `window.location.href`. */
  function Extract(elements: seq<ScriptElement>, location: string): (r: seq<ScannedScript>)
    ensures |r| <= |elements|
    ensures ExtractedForm(r, location)
    decreases |elements|
  {
    if |elements| == 0 then []
    else
      var before := Extract(elements[..|elements| - 1], location);
      var e := elements[|elements| - 1];
      if IsScript(e) then
        ExtractedFormSnoc(before, e, location);
        before + [Describe(e, location, |before|)]
      else before
  }

  /** Appending the record of one more script keeps the form. */
  lemma ExtractedFormSnoc(before: seq<ScannedScript>, e: ScriptElement, location: string)
    requires ExtractedForm(before, location) && IsScript(e)
    ensures ExtractedForm(before + [Describe(e, location, |before|)], location)
  {
    var r := before + [Describe(e, location, |before|)];
    forall k | 0 <= k < |r|
      ensures RecordForm(r[k], location, k)
    {
      if k < |before| {
        assert r[k] == before[k];
      }
    }
  }

  /** The records of the given elements, each numbered by its position. */
  function DescribeAll(kept: seq<ScriptElement>, location: string): (r: seq<ScannedScript>)
    ensures |r| == |kept|
    ensures forall k :: 0 <= k < |r| ==> r[k] == Describe(kept[k], location, k)
    decreases |kept|
  {
    if |kept| == 0 then []
    else DescribeAll(kept[..|kept| - 1], location) + [Describe(kept[|kept| - 1], location, |kept| - 1)]
  }

  /** Extraction keeps exactly the elements with a source or non-blank text,
      in order, and the k-th record describes the k-th kept element. */
  lemma {:induction false} ExtractIsFilter(elements: seq<ScriptElement>, location: string)
    ensures Extract(elements, location) == DescribeAll(Filter(IsScript, elements), location)
    decreases |elements|
  {
    if |elements| > 0 {
      var init := elements[..|elements| - 1];
      var e := elements[|elements| - 1];
      ExtractIsFilter(init, location);
      FilterLast(IsScript, elements);
      DescribeAllSnoc(Filter(IsScript, init), e, location);
    }
  }

  /** The records of one more element. */
  lemma DescribeAllSnoc(kept: seq<ScriptElement>, e: ScriptElement, location: string)
    ensures DescribeAll(kept + [e], location) == DescribeAll(kept, location) + [Describe(e, location, |kept|)]
  {
    assert (kept + [e])[..|kept|] == kept;
  }

  /** A kept element becomes an external record exactly when it has a source. */
  lemma ExternalIffSource(elements: seq<ScriptElement>, location: string)
    ensures var kept := Filter(IsScript, elements);
      var r := Extract(elements, location);
      && |r| == |kept|
      && forall k :: 0 <= k < |r| ==> (r[k].kind == External <==> kept[k].src != "")
  {
    ExtractIsFilter(elements, location);
  }

  // ------------------------------------------------------ filter and tally

  /** What fetching an external script gave: a throw, or its text, "" when
      there was no response or no text. */
  datatype FetchOutcome = Threw | Text(body: string)

  /** The functions of the modules this model does not include, and the
      fetches: `shouldSkipScript`, `getScriptSize`, `detectCredentials(content,
      url)`, `analyzeNetworkCalls`, and the outcome of fetching the script at
      each position of the extracted list. */
  datatype Oracles = Oracles(
    shouldSkip: string -> bool,
    sizeOf: string -> nat,
    detect: (string, string) -> seq<CredentialMatch>,
    analyzeNetwork: seq<NetworkCall> -> NetworkSummary,
    fetch: nat -> FetchOutcome)

  /** Two mebibytes: larger script text is dropped. */
  const MaxScriptSize: nat := 2 * 1024 * 1024

  /** One turn of the loop over the extracted scripts for the script at
      position `i`: the record pushed, or `None` when the turn `continue`s. */
  function Process(script: ScannedScript, i: nat, o: Oracles): (r: Option<ScannedScript>)
    ensures r.Some? ==> r.value.url == script.url && r.value.kind == script.kind
    ensures r.Some? ==>
      r.value == script.(size := r.value.size, content := r.value.content, credentials := r.value.credentials)
    ensures script.kind == External && o.shouldSkip(script.url) ==> r.None?
    ensures script.kind == Inline ==>
      (r.None? <==> script.content.Some? && script.content.value != "" && o.sizeOf(script.content.value) > MaxScriptSize)
    ensures script.kind == Inline && r.Some? && script.content.Some? && script.content.value != "" ==>
      && r.value.size == Some(o.sizeOf(script.content.value))
      && r.value.credentials == Some(o.detect(script.content.value, script.url))
    ensures script.kind == Inline && (script.content.None? || script.content.value == "") ==> r == Some(script)
    ensures script.kind == External && !o.shouldSkip(script.url) && o.fetch(i) == Text("") ==> r == Some(script)
    ensures script.kind == External && !o.shouldSkip(script.url) && o.fetch(i) == Threw ==>
      r == Some(script.(credentials := Some([])))
    ensures script.kind == External && o.fetch(i).Text? && o.fetch(i).body != "" ==>
      (r.Some? <==> !o.shouldSkip(script.url) && o.sizeOf(o.fetch(i).body) <= MaxScriptSize)
    ensures script.kind == External && o.fetch(i).Text? && o.fetch(i).body != "" && r.Some? ==>
      && r.value.size == Some(o.sizeOf(o.fetch(i).body))
      && r.value.content == Some(o.fetch(i).body)
      && r.value.credentials == Some(o.detect(o.fetch(i).body, script.url))
  {
    if script.kind == External && o.shouldSkip(script.url) then None
    else if script.kind == Inline then
      if script.content.Some? && script.content.value != "" then
        var content := script.content.value;
        var size := o.sizeOf(content);
        if size > MaxScriptSize then None
        else Some(script.(size := Some(size), credentials := Some(o.detect(content, script.url))))
      else Some(script)
    else
      match o.fetch(i)
      case Threw => Some(script.(credentials := Some([])))
      case Text(content) =>
        if content == "" then Some(script)
        else
          var size := o.sizeOf(content);
          if size > MaxScriptSize then None
          else Some(script.(size := Some(size), content := Some(content),
                            credentials := Some(o.detect(content, script.url))))
  }

  /** The turn for position `i` as a sequence of zero or one records. */
  function Pushed(scripts: seq<ScannedScript>, i: nat, o: Oracles): seq<ScannedScript>
    requires i < |scripts|
  {
    match Process(scripts[i], i, o)
    case None => []
    case Some(s) => [s]
  }

  /** The records the loop pushes for the scripts given, in order. */
  function Kept(scripts: seq<ScannedScript>, o: Oracles): seq<ScannedScript>
    decreases |scripts|
  {
    if |scripts| == 0 then []
    else Kept(scripts[..|scripts| - 1], o) + Pushed(scripts, |scripts| - 1, o)
  }

  /** The credentials recorded on a script, none when the field is absent. */
  function CredentialsOf(s: ScannedScript): seq<CredentialMatch> {
    if s.credentials.Some? then s.credentials.value else []
  }

  /** The credentials of a list of scripts, in order. */
  function AllCredentials(scripts: seq<ScannedScript>): seq<CredentialMatch>
    decreases |scripts|
  {
    if |scripts| == 0 then []
    else AllCredentials(scripts[..|scripts| - 1]) + CredentialsOf(scripts[|scripts| - 1])
  }

  /** The key of `credentialsSummary`. */
  function CredentialType(c: CredentialMatch): string {
    c.kind
  }

  /** The kept records are the processed form of an increasing selection of
      the scripts: those, and only those, whose turn pushes a record. */
  lemma {:induction false} KeptIsSubsequence(scripts: seq<ScannedScript>, o: Oracles) returns (idx: seq<nat>)
    ensures var kept := Kept(scripts, o);
      && |idx| == |kept|
      && (forall k :: 0 <= k < |idx| ==> idx[k] < |scripts| && Process(scripts[idx[k]], idx[k], o) == Some(kept[k]))
      && (forall k :: 0 <= k < |idx| ==> kept[k].url == scripts[idx[k]].url && kept[k].kind == scripts[idx[k]].kind)
      && (forall k, l :: 0 <= k < l < |idx| ==> idx[k] < idx[l])
      && (forall i :: 0 <= i < |scripts| && Process(scripts[i], i, o).Some? ==> i in idx)
    decreases |scripts|
  {
    if |scripts| == 0 {
      idx := [];
    } else {
      var n := |scripts| - 1;
      var init := scripts[..n];
      var before := KeptIsSubsequence(init, o);
      KeptStep(scripts, o, before);
      if Process(scripts[n], n, o).Some? {
        idx := before + [n];
      } else {
        idx := before;
      }
      KeptSelection(scripts, o, before, idx);
    }
  }

  /** The selection for all but the last script, read against all scripts. */
  lemma KeptStep(scripts: seq<ScannedScript>, o: Oracles, before: seq<nat>)
    requires |scripts| > 0
    requires var init := scripts[..|scripts| - 1]; var kept := Kept(init, o);
      && |before| == |kept|
      && (forall k :: 0 <= k < |before| ==> before[k] < |init| && Process(init[before[k]], before[k], o) == Some(kept[k]))
      && (forall i :: 0 <= i < |init| && Process(init[i], i, o).Some? ==> i in before)
    ensures forall k :: 0 <= k < |before| ==>
      before[k] < |scripts| - 1 && Process(scripts[before[k]], before[k], o) == Some(Kept(scripts[..|scripts| - 1], o)[k])
    ensures forall i :: 0 <= i < |scripts| - 1 && Process(scripts[i], i, o).Some? ==> i in before
  {
    var init := scripts[..|scripts| - 1];
    forall i | 0 <= i < |init|
      ensures init[i] == scripts[i]
    {
    }
  }

  /** Extending the selection by the last position when its turn pushes. */
  lemma KeptSelection(scripts: seq<ScannedScript>, o: Oracles, before: seq<nat>, idx: seq<nat>)
    requires |scripts| > 0
    requires var n := |scripts| - 1;
      idx == before + (if Process(scripts[n], n, o).Some? then [n] else [])
    requires var kept := Kept(scripts[..|scripts| - 1], o);
      && |before| == |kept|
      && (forall k :: 0 <= k < |before| ==>
            before[k] < |scripts| - 1 && Process(scripts[before[k]], before[k], o) == Some(kept[k]))
      && (forall k, l :: 0 <= k < l < |before| ==> before[k] < before[l])
      && (forall i :: 0 <= i < |scripts| - 1 && Process(scripts[i], i, o).Some? ==> i in before)
    ensures var kept := Kept(scripts, o);
      && |idx| == |kept|
      && (forall k :: 0 <= k < |idx| ==> idx[k] < |scripts| && Process(scripts[idx[k]], idx[k], o) == Some(kept[k]))
      && (forall k :: 0 <= k < |idx| ==> kept[k].url == scripts[idx[k]].url && kept[k].kind == scripts[idx[k]].kind)
      && (forall k, l :: 0 <= k < l < |idx| ==> idx[k] < idx[l])
      && (forall i :: 0 <= i < |scripts| && Process(scripts[i], i, o).Some? ==> i in idx)
  {
    var n := |scripts| - 1;
    var kept := Kept(scripts, o);
    assert kept == Kept(scripts[..n], o) + Pushed(scripts, n, o);
    forall k | 0 <= k < |idx|
      ensures idx[k] < |scripts| && Process(scripts[idx[k]], idx[k], o) == Some(kept[k])
    {
      if k < |before| {
        assert idx[k] == before[k];
      }
    }
  }

  /** One turn of the count below. */
  lemma CountOneMore(m: map<string, nat>, seen: seq<CredentialMatch>, creds: seq<CredentialMatch>, j: nat)
    requires j < |creds| && Tallies(m, seen + creds[..j], CredentialType)
    ensures Tallies(Increment(m, creds[j].kind), seen + creds[..j + 1], CredentialType)
    ensures SumValues(Increment(m, creds[j].kind)) == SumValues(m) + 1
  {
    TallyStep(m, seen + creds[..j], CredentialType, creds[j]);
    assert seen + creds[..j] + [creds[j]] == seen + creds[..j + 1];
  }

  /** The loop's records after one more turn. */
  lemma KeptSnoc(scripts: seq<ScannedScript>, i: nat, o: Oracles)
    requires i < |scripts|
    ensures Kept(scripts[..i + 1], o) == Kept(scripts[..i], o) + Pushed(scripts, i, o)
  {
    assert scripts[..i + 1][..i] == scripts[..i];
  }

  /** The credentials of one more record follow those of the others. */
  lemma AllCredentialsSnoc(scripts: seq<ScannedScript>, s: ScannedScript)
    ensures AllCredentials(scripts + [s]) == AllCredentials(scripts) + CredentialsOf(s)
  {
    assert (scripts + [s])[..|scripts|] == scripts;
  }

  /** `script.credentials.forEach(...)`: each credential counted under its type. */
  method CountCredentials(summary: map<string, nat>, seen: seq<CredentialMatch>, creds: seq<CredentialMatch>)
    returns (r: map<string, nat>)
    requires Tallies(summary, seen, CredentialType)
    ensures Tallies(r, seen + creds, CredentialType)
    ensures SumValues(r) == SumValues(summary) + |creds|
  {
    r := summary;
    assert seen + creds[..0] == seen;
    for j := 0 to |creds|
      invariant Tallies(r, seen + creds[..j], CredentialType)
      invariant SumValues(r) == SumValues(summary) + j
    {
      CountOneMore(r, seen, creds, j);
      r := Increment(r, creds[j].kind);
    }
    assert creds[..|creds|] == creds;
  }

  /** The loop over the extracted scripts, whose records carry no credentials
      yet: the records kept, the running credential total and the per-type
      summary. The total counts the credentials of the kept records, and the
      summary's values add up to it. */
  method FilterScripts(scripts: seq<ScannedScript>, o: Oracles)
    returns (kept: seq<ScannedScript>, totalCredentials: nat, summary: map<string, nat>)
    requires forall k :: 0 <= k < |scripts| ==> scripts[k].credentials.None?
    ensures kept == Kept(scripts, o)
    ensures totalCredentials == |AllCredentials(kept)|
    ensures Tallies(summary, AllCredentials(kept), CredentialType)
    ensures SumValues(summary) == totalCredentials
  {
    kept, totalCredentials, summary := [], 0, map[];
    for i := 0 to |scripts|
      invariant kept == Kept(scripts[..i], o)
      invariant totalCredentials == |AllCredentials(kept)|
      invariant Tallies(summary, AllCredentials(kept), CredentialType)
      invariant SumValues(summary) == totalCredentials
    {
      KeptSnoc(scripts, i, o);
      match Process(scripts[i], i, o)
      case None =>
      case Some(s) =>
        var found := CredentialsOf(s);
        totalCredentials := totalCredentials + |found|;
        summary := CountCredentials(summary, AllCredentials(kept), found);
        AllCredentialsSnoc(kept, s);
        kept := kept + [s];
    }
    assert scripts[..|scripts|] == scripts;
  }

  // ---------------------------------------------------------------- answer

  /** The page once loaded: its location, its script elements and the
      network calls the monitor holds when the answer is built; `LoadFailed`
      when the browser or the navigation throws. */
  datatype PageLoad = LoadFailed | Loaded(location: string, elements: seq<ScriptElement>, networkCalls: seq<NetworkCall>)

  /** The answer of `POST`. */
  datatype Response = Refused(gate: Gate) | ScanFailed | Scanned(result: ScanResult)

  /** `POST /api/scan`. The page is only looked at once every gate has passed. */
  method Post(st: DV.Stores, req: ScanRequest, valid: bool, hostname: Option<string>,
              page: PageLoad, o: Oracles, timestamp: string) returns (resp: Response)
    ensures var g := CheckGate(st, req, valid, hostname);
      && (!g.Admitted? ==> resp == Refused(g))
      && (g.Admitted? && page.LoadFailed? ==> resp == ScanFailed)
      && (resp.Scanned? <==> g.Admitted? && page.Loaded?)
    ensures resp.Scanned? ==>
      var r := resp.result;
      && r.url == req.url.value
      && r.scripts == Kept(Extract(page.elements, page.location), o)
      && r.totalScripts == |r.scripts|
      && r.totalCredentials == |AllCredentials(r.scripts)|
      && Tallies(r.credentialsSummary, AllCredentials(r.scripts), CredentialType)
      && SumValues(r.credentialsSummary) == r.totalCredentials
      && r.networkCalls == page.networkCalls
      && r.totalNetworkCalls == |page.networkCalls|
      && r.networkSummary == o.analyzeNetwork(page.networkCalls)
  {
    var g := CheckGate(st, req, valid, hostname);
    if !g.Admitted? {
      return Refused(g);
    }
    match page
    case LoadFailed =>
      resp := ScanFailed;
    case Loaded(location, elements, networkCalls) =>
      var scripts := Extract(elements, location);
      var kept, totalCredentials, summary := FilterScripts(scripts, o);
      resp := Scanned(ScanResult(
        req.url.value, kept, networkCalls, timestamp,
        |kept|, totalCredentials, |networkCalls|, summary, o.analyzeNetwork(networkCalls)));
  }
}
