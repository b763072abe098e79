/** The database exposure detector of src/app/lib/scanner/database-exposure.ts:
    a content scan over a fixed rule table, a probe of a fixed list of
    sensitive endpoints, a scan of captured network traffic, and the
    aggregation of all three into one tallied result.

    The regular expressions of the rule table and of the SQL indicator check
    are not re-implemented: a `Matcher` stands for `content.match(re)` on the
    expression with the given literal text. The endpoint responses and the
    captured calls are inputs. Every other helper is written out. */
module DatabaseScanner {
  import opened Common
  import opened Cyberscope

  // ------------------------------------------------------------ the tables

  /** A rule of the exposure table: the literal text of a global,
      case-insensitive regular expression, and what a match of it means. */
  datatype Rule = Rule(pattern: string, kind: ExposureType, severity: Severity)

  /** The rule table, in source order. */
  const DbConfigPatterns: seq<Rule> := [
    Rule("/database\\.php/gi", ConfigFile, Critical),
    Rule("/config\\.php/gi", ConfigFile, Critical),
    Rule("/db\\.config/gi", ConfigFile, Critical),
    Rule("/database\\.yml/gi", ConfigFile, Critical),
    Rule("/database\\.json/gi", ConfigFile, Critical),
    Rule("/\\.env/gi", ConfigFile, Critical),
    Rule("/wp-config\\.php/gi", ConfigFile, Critical),
    // connection strings
    Rule("/mongodb:\\/\\/[^\\s\"']+/gi", ConnectionString, Critical),
    Rule("/mysql:\\/\\/[^\\s\"']+/gi", ConnectionString, Critical),
    Rule("/postgresql:\\/\\/[^\\s\"']+/gi", ConnectionString, Critical),
    Rule("/redis:\\/\\/[^\\s\"']+/gi", ConnectionString, High),
    Rule("/Server=.*;Database=.*;/gi", ConnectionString, Critical),
    // credential assignments
    Rule("/DB_PASSWORD\\s*=\\s*[\"']?[^\"'\\s]+/gi", ConnectionString, Critical),
    Rule("/DB_HOST\\s*=\\s*[\"']?[^\"'\\s]+/gi", ConnectionString, High),
    Rule("/DATABASE_URL\\s*=\\s*[\"']?[^\"'\\s]+/gi", ConnectionString, Critical),
    // dumps and backups
    Rule("/\\.sql\\.gz/gi", SqlDump, High),
    Rule("/\\.sql\\.zip/gi", SqlDump, High),
    Rule("/dump\\.sql/gi", SqlDump, High),
    Rule("/backup\\.sql/gi", BackupFile, High),
    Rule("/database\\.sql/gi", SqlDump, High),
    // admin interfaces
    Rule("/phpmyadmin/gi", AdminInterface, Medium),
    Rule("/adminer/gi", AdminInterface, Medium),
    Rule("/phpMyAdmin/gi", AdminInterface, Medium),
    Rule("/mongo-express/gi", AdminInterface, Medium),
    // vendor error messages
    Rule("/MySQL Error/gi", ErrorMessage, Medium),
    Rule("/PostgreSQL Error/gi", ErrorMessage, Medium),
    Rule("/ORA-\\d+/gi", ErrorMessage, Medium),
    Rule("/SQL Server Error/gi", ErrorMessage, Medium),
    Rule("/MongoDB Error/gi", ErrorMessage, Medium)
  ]

  /** The SQL injection indicators, tried in this order. */
  const SqlPatterns: seq<string> := [
    "/union\\s+select/gi",
    "/drop\\s+table/gi",
    "/delete\\s+from/gi",
    "/insert\\s+into/gi",
    "/update\\s+.*\\s+set/gi",
    "/select\\s+.*\\s+from/gi"
  ]

  const DbFileExtensions: seq<string> := [
    ".sql", ".sql.gz", ".sql.zip", ".sql.bz2", ".sql.tar.gz",
    ".dump", ".bak", ".backup", ".db", ".sqlite", ".sqlite3",
    ".mdb", ".accdb", ".dbf"
  ]

  /** The probed paths, in the order they are requested. */
  const DbEndpoints: seq<string> := [
    "/phpmyadmin", "/phpMyAdmin", "/adminer.php", "/adminer",
    "/database", "/db", "/mysql", "/mongodb", "/redis",
    "/backup", "/dumps", "/sql", "/.env",
    "/config.php", "/database.php", "/wp-config.php",
    "/config/database.yml", "/config/config.php"
  ]

  const AdminIndicators: seq<string> := [
    "phpMyAdmin", "Adminer", "Database Administration", "MySQL Administration",
    "MongoDB Admin", "Redis Admin", "Database Manager"
  ]

  const ConfigFileNames: seq<string> := [".env", "config.php", "database.php", "wp-config.php", "database.yml"]

  /** Keywords of `containsDbCredentials` and `extractCredentialEvidence`. */
  const CredentialKeywords: seq<string> := ["password", "username", "database", "host"]

  /** The literal alternatives of `containsDatabaseErrors`; `/ora-\d+/` is `HasOraCode`. */
  const ErrorSignatures: seq<string> := [
    "mysql error", "postgresql error", "sql server error", "mongodb error", "database connection failed"
  ]

  const DbUrlKeywords: seq<string> := ["mysql", "mongodb", "redis", "postgresql", "oracle", "database", "db"]

  const ErrorWords: seq<string> := ["error", "exception", "failed", "denied"]
  const DbWords: seq<string> := ["mysql", "postgresql", "oracle", "mongodb", "database", "sql"]

  const EvidenceWidth: nat := 100
  const EndpointSource := "endpoint_scan"
  const NetworkSource := "network_analysis"

  /** `content.match(re)` for the global expression with literal text
      `pattern`: every match in order, empty where the source gets `null`.
      `re.test(content)` on a fresh expression holds exactly when this is
      non-empty. */
  type Matcher = (string, string) -> seq<string>

  // ------------------------------------------------------- fixed wording

  /** The exact text of a description. */
  function DescriptionText(d: Description): string {
    match d
    case Detected(kind, found) =>
      (match kind
       case ConfigFile => "Database configuration file detected: " + found
       case ConnectionString => "Database connection string exposed: " + found[..Min(50, |found|)] + "..."
       case SqlDump => "SQL dump file detected: " + found
       case BackupFile => "Database backup file detected: " + found
       case AdminInterface => "Database admin interface detected: " + found
       case ErrorMessage => "Database error message exposed: " + found[..Min(100, |found|)] + "..."
       case DirectoryListing => "Directory listing with database files: " + found)
    case SqlQueriesExposed => "Potential SQL injection vulnerability or exposed SQL queries"
    case AdminReachable(endpoint) => "Database admin interface accessible at " + endpoint
    case ListingReachable(endpoint) => "Directory listing contains database files at " + endpoint
    case ConfigReachable(endpoint) => "Database configuration file exposed at " + endpoint
    case DatabaseRequest(url) => "Database-related network request detected: " + url
    case ErrorInResponse => "Database error message detected in network response"
  }

  /** The exact text of a recommendation. */
  function AdviceText(a: Advice): string {
    match a
    case AdviceFor(kind) =>
      (match kind
       case ConfigFile => "Move configuration files outside web root and use environment variables"
       case ConnectionString => "Use environment variables and secure credential storage"
       case SqlDump => "Remove SQL dump files from web-accessible directories"
       case BackupFile => "Secure backup files and remove from web-accessible locations"
       case AdminInterface => "Restrict access to database admin interfaces with proper authentication"
       case ErrorMessage => "Implement proper error handling to prevent information disclosure"
       case DirectoryListing => "Disable directory listings and secure sensitive files")
    case ParameterizeQueries => "Review and sanitize SQL queries, use parameterized queries"
    case RestrictAdmin => "Restrict access to database admin interfaces, implement authentication"
    case SecureListing => "Disable directory listings and secure database files"
    case SecureConfig => "Remove or secure configuration files, use environment variables"
    case ReviewRequests => "Review database-related network requests for security"
  }

  // ------------------------------------------------------ report lists

  /** Some exposure in `r` is of type `kind`. */
  predicate Reports(r: seq<DatabaseExposure>, kind: ExposureType) {
    exists i :: 0 <= i < |r| && r[i].kind == kind
  }

  /** No type is reported twice. */
  predicate KindsDistinct(r: seq<DatabaseExposure>) {
    forall i, j :: 0 <= i < j < |r| ==> r[i].kind != r[j].kind
  }

  /** Without repeated types, each type is counted once when reported and
      not at all otherwise. */
  lemma {:induction false} DistinctCountsOnce(r: seq<DatabaseExposure>, kind: ExposureType)
    requires KindsDistinct(r)
    ensures CountKind(r, kind) == (if Reports(r, kind) then 1 else 0)
    decreases |r|
  {
    if |r| > 0 {
      var init := r[..|r| - 1];
      var last := r[|r| - 1];
      forall i, j | 0 <= i < j < |init|
        ensures init[i].kind != init[j].kind
      {
        assert init[i] == r[i] && init[j] == r[j];
      }
      DistinctCountsOnce(init, kind);
      if Reports(init, kind) {
        var i :| 0 <= i < |init| && init[i].kind == kind;
        assert r[i] == init[i];
        assert last.kind != kind;
      }
      if last.kind == kind {
        assert Reports(r, kind);
      } else if Reports(r, kind) {
        var i :| 0 <= i < |r| && r[i].kind == kind;
        assert init[i] == r[i];
      }
    }
  }

  /** `if (c) exposures.push(e)` */
  function When(c: bool, e: DatabaseExposure): (r: seq<DatabaseExposure>)
    ensures c ==> r == [e]
    ensures !c ==> r == []
    ensures |r| <= 1
    ensures forall i :: 0 <= i < |r| ==> r[i] == e
    ensures forall k :: Reports(r, k) <==> c && e.kind == k
  {
    if c then (assert [e][0] == e; [e]) else []
  }

  lemma ReportsAppend(a: seq<DatabaseExposure>, b: seq<DatabaseExposure>, kind: ExposureType)
    ensures Reports(a + b, kind) <==> Reports(a, kind) || Reports(b, kind)
  {
    if Reports(a, kind) {
      var i :| 0 <= i < |a| && a[i].kind == kind;
      assert (a + b)[i] == a[i];
    }
    if Reports(b, kind) {
      var i :| 0 <= i < |b| && b[i].kind == kind;
      assert (a + b)[|a| + i] == b[i];
    }
  }

  // ------------------------------------------------------- content scan

  /** The exposure reported for one match of one rule. */
  function MatchExposure(rule: Rule, found: string, source: string): DatabaseExposure {
    DatabaseExposure(rule.kind, rule.severity, source, Detected(rule.kind, found),
                     Some(Truncate(found, EvidenceWidth)), AdviceFor(rule.kind), None)
  }

  /** How many matches the rules find in `content` together. */
  function MatchCount(rules: seq<Rule>, content: string, m: Matcher): nat
    decreases |rules|
  {
    if |rules| == 0 then 0 else |m(rules[0].pattern, content)| + MatchCount(rules[1..], content, m)
  }

  /** The exposures of the rule loop: one per match of each rule, rule by rule. */
  function TableExposures(rules: seq<Rule>, content: string, source: string, m: Matcher): (r: seq<DatabaseExposure>)
    ensures |r| == MatchCount(rules, content, m)
    ensures forall e :: e in r ==>
      exists rule, x :: rule in rules && x in m(rule.pattern, content) && e == MatchExposure(rule, x, source)
    ensures forall e :: e in r ==>
      e.source == source && e.url.None? && e.evidence.Some? && |e.evidence.value| <= EvidenceWidth + 3
    decreases |rules|
  {
    if |rules| == 0 then []
    else
      var here := RuleExposures(rules[0], content, source, m);
      assert forall e :: e in here ==> exists x :: x in m(rules[0].pattern, content) && e == MatchExposure(rules[0], x, source);
      here + TableExposures(rules[1..], content, source, m)
  }

  /** The exposures of one rule: one per match, in the order of the matches. */
  function RuleExposures(rule: Rule, content: string, source: string, m: Matcher): (r: seq<DatabaseExposure>)
    ensures |r| == |m(rule.pattern, content)|
    ensures forall i :: 0 <= i < |r| ==> r[i] == MatchExposure(rule, m(rule.pattern, content)[i], source)
  {
    var ms := m(rule.pattern, content);
    seq(|ms|, i requires 0 <= i < |ms| => MatchExposure(rule, ms[i], source))
  }

  /** The rule loop over two tables is the loop over the first, then over the
      second. With `TableExposuresOne`, the exposures are exactly one per
      match, rule by rule and match by match. */
  lemma {:induction false} TableExposuresAppend(a: seq<Rule>, b: seq<Rule>, content: string, source: string, m: Matcher)
    ensures TableExposures(a + b, content, source, m)
         == TableExposures(a, content, source, m) + TableExposures(b, content, source, m)
    decreases |a|
  {
    if |a| > 0 {
      assert (a + b)[0] == a[0];
      assert (a + b)[1..] == a[1..] + b;
      TableExposuresAppend(a[1..], b, content, source, m);
    } else {
      assert a + b == b;
    }
  }

  /** A table of one rule reports that rule's matches, one exposure each, in order. */
  lemma TableExposuresOne(rule: Rule, content: string, source: string, m: Matcher)
    ensures TableExposures([rule], content, source, m) == RuleExposures(rule, content, source, m)
  {
    assert [rule][1..] == [];
  }

  /** Every match of every rule is reported. */
  lemma {:induction false} EveryMatchReported(rules: seq<Rule>, content: string, source: string, m: Matcher, rule: Rule, x: string)
    requires rule in rules && x in m(rule.pattern, content)
    ensures MatchExposure(rule, x, source) in TableExposures(rules, content, source, m)
    decreases |rules|
  {
    var ms := m(rules[0].pattern, content);
    var here := RuleExposures(rules[0], content, source, m);
    assert TableExposures(rules, content, source, m) == here + TableExposures(rules[1..], content, source, m);
    if rule == rules[0] {
      var i :| 0 <= i < |ms| && ms[i] == x;
      assert here[i] == MatchExposure(rule, x, source);
    } else {
      EveryMatchReported(rules[1..], content, source, m, rule, x);
    }
  }

  function SqlInjectionExposure(source: string): DatabaseExposure {
    DatabaseExposure(ErrorMessage, Medium, source, SqlQueriesExposed, None, ParameterizeQueries, None)
  }

  /** The indicator loop: the first pattern that matches reports once, then the loop stops. */
  function SqlIndicator(patterns: seq<string>, content: string, source: string, m: Matcher): (r: seq<DatabaseExposure>)
    ensures |r| <= 1
    ensures |r| == 1 <==> exists p :: p in patterns && |m(p, content)| > 0
    ensures forall e :: e in r ==> e == SqlInjectionExposure(source)
    decreases |patterns|
  {
    if |patterns| == 0 then []
    else if |m(patterns[0], content)| > 0 then [SqlInjectionExposure(source)]
    else SqlIndicator(patterns[1..], content, source, m)
  }

  /** The content scan over a rule table and a list of SQL indicators. */
  function ScanContent(rules: seq<Rule>, sqlPatterns: seq<string>, content: string, source: string, m: Matcher)
    : (r: seq<DatabaseExposure>)
    ensures var n := MatchCount(rules, content, m);
      && n <= |r| <= n + 1
      && (|r| == n + 1 <==> exists p :: p in sqlPatterns && |m(p, content)| > 0)
      && (forall e :: e in r[..n] ==>
            && e.evidence.Some? && |e.evidence.value| <= EvidenceWidth + 3
            && exists rule, x :: rule in rules && x in m(rule.pattern, content) && e == MatchExposure(rule, x, source))
      && (forall e :: e in r[n..] ==> e == SqlInjectionExposure(source))
    ensures forall e :: e in r ==> e.source == source && e.url.None?
    ensures r[..MatchCount(rules, content, m)] == TableExposures(rules, content, source, m)
    ensures r[MatchCount(rules, content, m)..] == SqlIndicator(sqlPatterns, content, source, m)
  {
    var table := TableExposures(rules, content, source, m);
    var extra := SqlIndicator(sqlPatterns, content, source, m);
    assert (table + extra)[..|table|] == table && (table + extra)[|table|..] == extra;
    table + extra
  }

  /** `detectDatabaseExposures(content, source)`: `ScanContent` over the
      source's rule table and indicator list. */
  function DetectDatabaseExposures(content: string, source: string, m: Matcher): seq<DatabaseExposure>
  {
    ScanContent(DbConfigPatterns, SqlPatterns, content, source, m)
  }

  // ------------------------------------------------------ helper predicates

  /** `isDbAdminInterface`: some indicator occurs in the body or the title, ignoring case. */
  predicate IsDbAdminInterface(content: string, title: string) {
    exists ind :: ind in AdminIndicators &&
      (Contains(Lower(content), Lower(ind)) || Contains(Lower(title), Lower(ind)))
  }

  predicate IsDirectoryListing(content: string) {
    Contains(content, "Index of /") || Contains(content, "<title>Directory listing") || Contains(content, "Parent Directory")
  }

  predicate ContainsDatabaseFiles(content: string) {
    ContainsAny(content, DbFileExtensions)
  }

  predicate IsConfigFile(endpoint: string) {
    ContainsAny(endpoint, ConfigFileNames)
  }

  predicate IsValueChar(c: char) {
    !IsQuote(c) && !IsSpace(c)
  }

  /** `/kw\s*[=:]\s*["']?[^"'\s]+/` matches at position `i` of `s`. */
  predicate AssignmentAt(s: string, kw: string, i: nat)
    requires i <= |s|
  {
    LitAt(s, i, kw) &&
    var a := SkipSpaces(s, i + |kw|);
    a < |s| && (s[a] == '=' || s[a] == ':') &&
    var b := SkipSpaces(s, a + 1);
    (b < |s| && IsValueChar(s[b])) || (b + 1 < |s| && IsQuote(s[b]) && IsValueChar(s[b + 1]))
  }

  /** `containsDbCredentials`: a keyword assigned a value, ignoring case. */
  predicate ContainsDbCredentials(content: string) {
    var s := Lower(content);
    exists kw, i :: kw in CredentialKeywords && 0 <= i <= |s| && AssignmentAt(s, kw, i)
  }

  /** `/ora-\d+/` matches at position `i` of `s`. */
  predicate OraCodeAt(s: string, i: nat) {
    i + 5 <= |s| && LitAt(s, i, "ora-") && IsDigit(s[i + 4])
  }

  /** `/ora-\d+/` matches somewhere in `s`. */
  predicate HasOraCode(s: string) {
    exists i :: 0 <= i < |s| && OraCodeAt(s, i)
  }

  /** `containsDatabaseErrors`, ignoring case. */
  predicate ContainsDatabaseErrors(content: string) {
    var s := Lower(content);
    ContainsAny(s, ErrorSignatures) || HasOraCode(s)
  }

  /** `containsDatabasePatterns` on the lower-cased URL. */
  predicate ContainsDatabasePatterns(url: string) {
    ContainsAny(Lower(url), DbUrlKeywords)
  }

  predicate IsCredentialLine(line: string) {
    ContainsAny(Lower(line), CredentialKeywords) && ('=' in line || ':' in line)
  }

  predicate IsErrorLine(line: string) {
    ContainsAny(Lower(line), ErrorWords) && ContainsAny(Lower(line), DbWords)
  }

  /** The first `count` lines that `keep` accepts, each cut to `width`
      characters plus "...". */
  function ExcerptLines(lines: seq<string>, keep: string -> bool, count: nat, width: nat): (r: seq<string>)
    ensures |r| <= count
    ensures forall l :: l in r ==> |l| <= width + 3
    ensures forall l :: l in r ==> exists line :: line in lines && keep(line) && l == Truncate(line, width)
    decreases |lines|
  {
    if count == 0 || |lines| == 0 then []
    else
      var rest := if keep(lines[0]) then ExcerptLines(lines[1..], keep, count - 1, width)
                  else ExcerptLines(lines[1..], keep, count, width);
      assert forall line :: line in lines[1..] ==> line in lines;
      if keep(lines[0]) then [Truncate(lines[0], width)] + rest else rest
  }

  /** Every line cut by `Truncate`, in order. */
  function TruncateAll(lines: seq<string>, width: nat): (r: seq<string>)
    ensures |r| == |lines|
    decreases |lines|
  {
    if |lines| == 0 then [] else [Truncate(lines[0], width)] + TruncateAll(lines[1..], width)
  }

  /** The excerpt is the first `count` accepted lines of the filter, each cut. */
  lemma {:induction false} ExcerptIsFilterPrefix(lines: seq<string>, keep: string -> bool, count: nat, width: nat)
    ensures ExcerptLines(lines, keep, count, width)
         == TruncateAll(Filter(keep, lines)[..Min(count, |Filter(keep, lines)|)], width)
    decreases |lines|
  {
    if count > 0 && |lines| > 0 {
      var c := if keep(lines[0]) then count - 1 else count;
      ExcerptIsFilterPrefix(lines[1..], keep, c, width);
      var tail := Filter(keep, lines[1..]);
      if keep(lines[0]) {
        var kept := Filter(keep, lines)[..Min(count, |Filter(keep, lines)|)];
        assert Filter(keep, lines) == [lines[0]] + tail;
        assert kept[0] == lines[0];
        assert kept[1..] == tail[..Min(c, |tail|)];
      }
    }
  }

  /** A line cut by `Truncate` has a newline only if the line had one. */
  lemma TruncateKeepsNewlineFree(s: string, n: nat)
    requires '\n' !in s
    ensures '\n' !in Truncate(s, n)
  {
    if |s| > n {
      assert Truncate(s, n) == s[..n] + "...";
      assert forall k :: 0 <= k < n ==> s[..n][k] == s[k];
    }
  }

  /** The first `count` lines of `content` that `keep` accepts, each cut to
      `width` characters plus "...", joined with newlines. */
  function EvidenceExcerpt(content: string, keep: string -> bool, count: nat, width: nat): (r: string)
    requires count >= 1
    ensures |r| <= count * (width + 3) + count - 1
    ensures var parts := ExcerptLines(Lines(content), keep, count, width);
      (parts == [] ==> r == "") && (parts != [] ==> Lines(r) == parts)
  {
    var parts := ExcerptLines(Lines(content), keep, count, width);
    assert forall i :: 0 <= i < |parts| ==> parts[i] in parts;
    JoinBound(parts, "\n", count, width + 3);
    var r := Join(parts, "\n");
    if |parts| >= 1 then
      assert forall i :: 0 <= i < |parts| ==> '\n' !in parts[i] by {
        forall i | 0 <= i < |parts|
          ensures '\n' !in parts[i]
        {
          var line :| line in Lines(content) && keep(line) && parts[i] == Truncate(line, width);
          TruncateKeepsNewlineFree(line, width);
        }
      }
      LinesJoin(parts);
      r
    else
      r
  }

  /** `extractCredentialEvidence`: at most three credential lines, 80 characters each. */
  function CredentialEvidence(content: string): (r: string)
    ensures |r| <= 3 * 83 + 2
    ensures var parts := ExcerptLines(Lines(content), IsCredentialLine, 3, 80);
      (parts == [] ==> r == "") && (parts != [] ==> Lines(r) == parts)
  {
    EvidenceExcerpt(content, IsCredentialLine, 3, 80)
  }

  /** `extractErrorEvidence`: at most two error lines, 100 characters each. */
  function ErrorEvidence(content: string): (r: string)
    ensures |r| <= 2 * 103 + 1
    ensures var parts := ExcerptLines(Lines(content), IsErrorLine, 2, 100);
      (parts == [] ==> r == "") && (parts != [] ==> Lines(r) == parts)
  {
    EvidenceExcerpt(content, IsErrorLine, 2, 100)
  }

  /** `determineSeverity`: the product-name test is case-sensitive. */
  function DetermineSeverity(endpoint: string, statusCode: int): (r: Severity)
    ensures r != Low
    ensures r == Critical <==> (Contains(endpoint, "phpmyadmin") || Contains(endpoint, "adminer")) && statusCode == 200
    ensures r == Medium <==> !(Contains(endpoint, "phpmyadmin") || Contains(endpoint, "adminer")) && statusCode != 200
  {
    if Contains(endpoint, "phpmyadmin") || Contains(endpoint, "adminer") then
      (if statusCode == 200 then Critical else High)
    else if statusCode == 200 then High else Medium
  }

  /** The upper-case probe path does not name either tool in lower case. */
  lemma UpperCasePathLacks(tool: string)
    requires tool == "phpmyadmin" || tool == "adminer"
    ensures !Contains("/phpMyAdmin", tool)
  {
    if Contains("/phpMyAdmin", tool) {
      ContainsChars("/phpMyAdmin", tool, 5);
    }
  }

  /** The upper-case probe path never escalates to critical. */
  lemma UpperCasePhpMyAdminAtMostHigh(statusCode: int)
    ensures DetermineSeverity("/phpMyAdmin", statusCode) != Critical
  {
    UpperCasePathLacks("phpmyadmin");
    UpperCasePathLacks("adminer");
  }

  // ----------------------------------------------------- endpoint probing

  /** What `page.goto(testUrl)` produced for one probe: the resolved URL,
      the status, the body text and the page title. */
  datatype ProbeResponse = ProbeResponse(testUrl: string, status: int, body: string, title: string)

  function AdminExposure(endpoint: string, resp: ProbeResponse): DatabaseExposure {
    DatabaseExposure(AdminInterface, DetermineSeverity(endpoint, resp.status), EndpointSource,
                     AdminReachable(endpoint), None, RestrictAdmin, Some(resp.testUrl))
  }

  function ListingExposure(endpoint: string, resp: ProbeResponse): DatabaseExposure {
    DatabaseExposure(DirectoryListing, High, EndpointSource, ListingReachable(endpoint), None, SecureListing, Some(resp.testUrl))
  }

  function ConfigExposure(endpoint: string, resp: ProbeResponse, evidence: string): DatabaseExposure {
    DatabaseExposure(ConfigFile, Critical, EndpointSource, ConfigReachable(endpoint), Some(evidence), SecureConfig, Some(resp.testUrl))
  }

  /** What an exposure reported by probing `endpoint` looks like. */
  predicate IsProbeExposure(e: DatabaseExposure, endpoint: string, resp: ProbeResponse, evidence: string) {
    e.source == EndpointSource && e.url == Some(resp.testUrl) &&
    match e.kind
    case AdminInterface => e.severity == DetermineSeverity(endpoint, resp.status)
    case DirectoryListing => e.severity == High
    case ConfigFile => e.severity == Critical && e.evidence == Some(evidence)
    case _ => false
  }

  /** The exposures of one answered probe, given the outcome of the three checks
      and the credential excerpt of the body. */
  function ProbeFindings(endpoint: string, resp: ProbeResponse, admin: bool, listing: bool, config: bool,
                         evidence: string): (r: seq<DatabaseExposure>)
    ensures |r| <= 3
    ensures forall e :: e in r ==> IsProbeExposure(e, endpoint, resp, evidence)
    ensures Reports(r, AdminInterface) <==> admin
    ensures Reports(r, DirectoryListing) <==> listing
    ensures Reports(r, ConfigFile) <==> config
    ensures KindsDistinct(r)
  {
    var a := When(admin, AdminExposure(endpoint, resp));
    var b := When(listing, ListingExposure(endpoint, resp));
    var c := When(config, ConfigExposure(endpoint, resp, evidence));
    ReportsAppend(a, b, AdminInterface);
    ReportsAppend(a, b, DirectoryListing);
    ReportsAppend(a, b, ConfigFile);
    ReportsAppend(a + b, c, AdminInterface);
    ReportsAppend(a + b, c, DirectoryListing);
    ReportsAppend(a + b, c, ConfigFile);
    a + b + c
  }

  /** Each check of a probe that holds is reported exactly once, and no
      other check is reported. */
  lemma ProbeFindingsCount(endpoint: string, resp: ProbeResponse, admin: bool, listing: bool, config: bool,
                           evidence: string)
    ensures var r := ProbeFindings(endpoint, resp, admin, listing, config, evidence);
      && CountKind(r, AdminInterface) == (if admin then 1 else 0)
      && CountKind(r, DirectoryListing) == (if listing then 1 else 0)
      && CountKind(r, ConfigFile) == (if config then 1 else 0)
      && |r| == CountKind(r, AdminInterface) + CountKind(r, DirectoryListing) + CountKind(r, ConfigFile)
  {
    var r := ProbeFindings(endpoint, resp, admin, listing, config, evidence);
    DistinctCountsOnce(r, AdminInterface);
    DistinctCountsOnce(r, DirectoryListing);
    DistinctCountsOnce(r, ConfigFile);
  }

  /** The checks on an answered probe: an error status reports nothing. */
  function ProbeAnswered(endpoint: string, resp: ProbeResponse): (r: seq<DatabaseExposure>)
    ensures |r| <= 3
    ensures resp.status >= 400 ==> r == []
    ensures forall e :: e in r ==> IsProbeExposure(e, endpoint, resp, CredentialEvidence(resp.body))
    ensures resp.status < 400 ==>
      && (Reports(r, AdminInterface) <==> IsDbAdminInterface(resp.body, resp.title))
      && (Reports(r, DirectoryListing) <==> IsDirectoryListing(resp.body) && ContainsDatabaseFiles(resp.body))
      && (Reports(r, ConfigFile) <==> IsConfigFile(endpoint) && ContainsDbCredentials(resp.body))
    ensures KindsDistinct(r)
  {
    if resp.status >= 400 then []
    else
      ProbeFindings(endpoint, resp, IsDbAdminInterface(resp.body, resp.title),
                    IsDirectoryListing(resp.body) && ContainsDatabaseFiles(resp.body),
                    IsConfigFile(endpoint) && ContainsDbCredentials(resp.body),
                    CredentialEvidence(resp.body))
  }

  /** One iteration of the probe loop. `None` is a request that threw (or
      a null response): it contributes nothing. */
  function ProbeEndpoint(endpoint: string, response: Option<ProbeResponse>): (r: seq<DatabaseExposure>)
    ensures response.None? ==> r == []
    ensures response.Some? ==> r == ProbeAnswered(endpoint, response.value)
    ensures |r| <= 3
    ensures forall e :: e in r ==> e.source == EndpointSource && e.url.Some?
  {
    match response
    case None => []
    case Some(resp) => ProbeAnswered(endpoint, resp)
  }

  /** One iteration of a probe loop, as a value. */
  type Probe = (string, Option<ProbeResponse>) -> seq<DatabaseExposure>

  /** A probe loop over paired endpoints and responses: the iterations'
      exposures, concatenated in order. */
  function ProbeAll(endpoints: seq<string>, responses: seq<Option<ProbeResponse>>, probe: Probe): seq<DatabaseExposure>
    requires |endpoints| == |responses|
    decreases |endpoints|
  {
    if |endpoints| == 0 then []
    else probe(endpoints[0], responses[0]) + ProbeAll(endpoints[1..], responses[1..], probe)
  }

  /** A probe loop is a concatenation of independent iterations. */
  lemma {:induction false} ProbeAllAppend(e1: seq<string>, r1: seq<Option<ProbeResponse>>,
                                          e2: seq<string>, r2: seq<Option<ProbeResponse>>, probe: Probe)
    requires |e1| == |r1| && |e2| == |r2|
    ensures ProbeAll(e1 + e2, r1 + r2, probe) == ProbeAll(e1, r1, probe) + ProbeAll(e2, r2, probe)
    decreases |e1|
  {
    if |e1| > 0 {
      assert (e1 + e2)[1..] == e1[1..] + e2;
      assert (r1 + r2)[1..] == r1[1..] + r2;
      ProbeAllAppend(e1[1..], r1[1..], e2, r2, probe);
    } else {
      assert e1 + e2 == e2 && r1 + r2 == r2;
    }
  }

  /** An iteration that reports nothing leaves the others as they are. */
  lemma {:induction false} ProbeAllSkips(endpoints: seq<string>, responses: seq<Option<ProbeResponse>>, probe: Probe, i: nat)
    requires |endpoints| == |responses| && i < |responses| && probe(endpoints[i], responses[i]) == []
    ensures ProbeAll(endpoints, responses, probe)
         == ProbeAll(endpoints[..i], responses[..i], probe) + ProbeAll(endpoints[i + 1..], responses[i + 1..], probe)
    decreases i
  {
    var rest := ProbeAll(endpoints[1..], responses[1..], probe);
    if i == 0 {
      assert endpoints[1..] == endpoints[i + 1..] && responses[1..] == responses[i + 1..];
      assert ProbeAll(endpoints[..i], responses[..i], probe) == [];
      assert ProbeAll(endpoints, responses, probe) == [] + rest;
      assert [] + rest == rest;
    } else {
      ProbeAllSkips(endpoints[1..], responses[1..], probe, i - 1);
      assert endpoints[..i][1..] == endpoints[1..][..i - 1] && responses[..i][1..] == responses[1..][..i - 1];
      assert endpoints[1..][i..] == endpoints[i + 1..] && responses[1..][i..] == responses[i + 1..];
    }
  }

  /** The endpoint probe loop reports at most three exposures per endpoint,
      each tagged as an endpoint finding with the probed URL. */
  lemma {:induction false} ProbeLoopShape(endpoints: seq<string>, responses: seq<Option<ProbeResponse>>)
    requires |endpoints| == |responses|
    ensures |ProbeAll(endpoints, responses, ProbeEndpoint)| <= 3 * |endpoints|
    ensures forall e :: e in ProbeAll(endpoints, responses, ProbeEndpoint) ==> e.source == EndpointSource && e.url.Some?
    decreases |endpoints|
  {
    if |endpoints| > 0 {
      ProbeLoopShape(endpoints[1..], responses[1..]);
    }
  }

  /** `scanDatabaseEndpoints`: one response per entry of `DbEndpoints`, in order. */
  function ScanDatabaseEndpoints(responses: seq<Option<ProbeResponse>>): (r: seq<DatabaseExposure>)
    requires |responses| == |DbEndpoints|
    ensures |r| <= 3 * |DbEndpoints|
    ensures forall e :: e in r ==> e.source == EndpointSource && e.url.Some?
  {
    ProbeLoopShape(DbEndpoints, responses);
    ProbeAll(DbEndpoints, responses, ProbeEndpoint)
  }

  /** A probe that threw contributes nothing and the probes after it still run. */
  lemma ProbeFailureIsSkipped(endpoints: seq<string>, responses: seq<Option<ProbeResponse>>, i: nat)
    requires |endpoints| == |responses| && i < |responses| && responses[i].None?
    ensures ProbeAll(endpoints, responses, ProbeEndpoint)
         == ProbeAll(endpoints[..i], responses[..i], ProbeEndpoint)
          + ProbeAll(endpoints[i + 1..], responses[i + 1..], ProbeEndpoint)
  {
    ProbeAllSkips(endpoints, responses, ProbeEndpoint, i);
  }

  /** A body that is just one of the indicators is recognised as an admin
      interface, whatever its case and whatever the title. */
  lemma IndicatorBodyIsAdmin(j: nat, title: string)
    requires j < |AdminIndicators|
    ensures IsDbAdminInterface(AdminIndicators[j], title)
    ensures IsDbAdminInterface(Lower(AdminIndicators[j]), title)
  {
    var lowered := Lower(AdminIndicators[j]);
    assert StartsWith(lowered, lowered);
    LowerIsLowerCase(AdminIndicators[j]);
    LowerOfLowerCase(lowered);
  }

  /** The body "phpMyAdmin" is not a directory listing. */
  lemma PhpMyAdminBodyIsNoListing()
    ensures !IsDirectoryListing("phpMyAdmin")
  {
    var body := "phpMyAdmin";
    if Contains(body, "Index of /") { ContainsChars(body, "Index of /", 0); }
    ContainsTooLong(body, "<title>Directory listing");
    ContainsTooLong(body, "Parent Directory");
  }

  /** The first probe path names no configuration file. */
  lemma PhpMyAdminPathIsNoConfig()
    ensures !IsConfigFile("/phpmyadmin")
  {
    var path := "/phpmyadmin";
    assert ".env"[0] == '.' && "config.php"[6] == '.' && "database.php"[8] == '.';
    assert "wp-config.php"[9] == '.' && "database.yml"[8] == '.';
    ContainsNoneLacking(path, ConfigFileNames, '.');
  }

  /** The lower-case probe path escalates an answered admin page to critical. */
  lemma PhpMyAdminPathIsCritical()
    ensures DetermineSeverity("/phpmyadmin", 200) == Critical
  {
    assert Contains("/phpmyadmin", "phpmyadmin") by {
      assert StartsWith("/phpmyadmin"[1..], "phpmyadmin");
      ContainsAt("/phpmyadmin", "phpmyadmin", 1);
    }
  }

  /** Only the admin check passing yields the admin exposure alone. */
  lemma AdminFindingAlone(endpoint: string, resp: ProbeResponse, admin: bool, listing: bool, config: bool, evidence: string)
    requires admin && !listing && !config
    ensures ProbeFindings(endpoint, resp, admin, listing, config, evidence) == [AdminExposure(endpoint, resp)]
  {
    var a := AdminExposure(endpoint, resp);
    assert ProbeFindings(endpoint, resp, admin, listing, config, evidence) == [a] + [] + [];
    assert [a] + [] + [] == [a];
  }

  /** An answered admin page that lists no files, at a path naming no
      configuration file, yields the admin exposure alone. */
  lemma AdminFindingOnly(endpoint: string, resp: ProbeResponse)
    requires resp.status < 400 && IsDbAdminInterface(resp.body, resp.title)
    requires !IsDirectoryListing(resp.body) && !IsConfigFile(endpoint)
    ensures ProbeAnswered(endpoint, resp) == [AdminExposure(endpoint, resp)]
  {
    AdminFindingAlone(endpoint, resp, IsDbAdminInterface(resp.body, resp.title),
                      IsDirectoryListing(resp.body) && ContainsDatabaseFiles(resp.body),
                      IsConfigFile(endpoint) && ContainsDbCredentials(resp.body),
                      CredentialEvidence(resp.body));
  }

  /** An admin page answering 200 at the first probe path, and not listing
      files, is reported exactly once, as critical ("phpMyAdmin" is such a
      body, by `IndicatorBodyIsAdmin` and `PhpMyAdminBodyIsNoListing`). */
  lemma PhpMyAdminProbeIsCritical(resp: ProbeResponse)
    requires resp.status == 200 && IsDbAdminInterface(resp.body, resp.title) && !IsDirectoryListing(resp.body)
    ensures ProbeEndpoint("/phpmyadmin", Some(resp)) == [AdminExposure("/phpmyadmin", resp)]
    ensures AdminExposure("/phpmyadmin", resp).severity == Critical
  {
    PhpMyAdminPathIsNoConfig();
    AdminFindingOnly("/phpmyadmin", resp);
    PhpMyAdminPathIsCritical();
  }

  // --------------------------------------------------- network traffic

  /** A captured call as the traffic scan reads it: `url` and `responseBody` may be absent. */
  datatype CapturedCall = CapturedCall(url: Option<string>, responseBody: Option<string>)

  /** `value || ''` */
  function OrEmpty(o: Option<string>): string {
    if o.Some? then o.value else ""
  }

  function UrlExposure(url: string): DatabaseExposure {
    DatabaseExposure(AdminInterface, Medium, NetworkSource, DatabaseRequest(url), None, ReviewRequests, Some(url))
  }

  function BodyExposure(evidence: string): DatabaseExposure {
    DatabaseExposure(ErrorMessage, Medium, NetworkSource, ErrorInResponse, Some(evidence), AdviceFor(ErrorMessage), None)
  }

  /** What every exposure of the traffic scan looks like. */
  predicate IsNetworkExposure(e: DatabaseExposure) {
    e.severity == Medium && e.source == NetworkSource && (e.kind == AdminInterface || e.kind == ErrorMessage)
  }

  /** The exposures of one captured call, given the outcome of the two checks
      and the error excerpt of the body. */
  function NetworkFindings(url: string, evidence: string, dbUrl: bool, dbError: bool): (r: seq<DatabaseExposure>)
    ensures |r| <= 2
    ensures forall e :: e in r ==> IsNetworkExposure(e)
    ensures Reports(r, AdminInterface) <==> dbUrl
    ensures Reports(r, ErrorMessage) <==> dbError
    ensures forall e :: e in r && e.kind == ErrorMessage ==> e.evidence == Some(evidence)
    ensures KindsDistinct(r)
  {
    var byUrl := When(dbUrl, UrlExposure(url));
    var byBody := When(dbError, BodyExposure(evidence));
    ReportsAppend(byUrl, byBody, AdminInterface);
    ReportsAppend(byUrl, byBody, ErrorMessage);
    byUrl + byBody
  }

  /** Each check of a call that holds is reported exactly once, and nothing else is. */
  lemma NetworkFindingsCount(url: string, evidence: string, dbUrl: bool, dbError: bool)
    ensures var r := NetworkFindings(url, evidence, dbUrl, dbError);
      && CountKind(r, AdminInterface) == (if dbUrl then 1 else 0)
      && CountKind(r, ErrorMessage) == (if dbError then 1 else 0)
      && |r| == CountKind(r, AdminInterface) + CountKind(r, ErrorMessage)
  {
    var r := NetworkFindings(url, evidence, dbUrl, dbError);
    DistinctCountsOnce(r, AdminInterface);
    DistinctCountsOnce(r, ErrorMessage);
  }

  /** One iteration of the traffic scan. */
  function CallExposures(call: CapturedCall): (r: seq<DatabaseExposure>)
    ensures |r| <= 2
    ensures forall e :: e in r ==> IsNetworkExposure(e)
    ensures Reports(r, AdminInterface) <==> ContainsDatabasePatterns(OrEmpty(call.url))
    ensures Reports(r, ErrorMessage) <==> ContainsDatabaseErrors(OrEmpty(call.responseBody))
    ensures forall e :: e in r && e.kind == ErrorMessage ==> e.evidence == Some(ErrorEvidence(OrEmpty(call.responseBody)))
    ensures KindsDistinct(r)
  {
    var url := OrEmpty(call.url);
    var body := OrEmpty(call.responseBody);
    NetworkFindings(url, ErrorEvidence(body), ContainsDatabasePatterns(url), ContainsDatabaseErrors(body))
  }

  /** A call with no URL and no body is not reported. */
  lemma MissingFieldsReportNothing(call: CapturedCall)
    requires OrEmpty(call.url) == "" && OrEmpty(call.responseBody) == ""
    ensures CallExposures(call) == []
  {
    assert !ContainsDatabasePatterns("");
    assert !ContainsAny("", ErrorSignatures);
  }

  /** `analyzeNetworkForDatabase`. */
  function AnalyzeNetworkForDatabase(calls: seq<CapturedCall>): (r: seq<DatabaseExposure>)
    ensures |r| <= 2 * |calls|
    ensures forall e :: e in r ==> IsNetworkExposure(e)
    decreases |calls|
  {
    if |calls| == 0 then []
    else
      CallExposures(calls[0]) + AnalyzeNetworkForDatabase(calls[1..])
  }

  /** The traffic scan over two lists of calls reports the first list's
      exposures, then the second's. With `AnalyzeNetworkOne`, each call's
      findings are reported, in call order. */
  lemma {:induction false} AnalyzeNetworkAppend(a: seq<CapturedCall>, b: seq<CapturedCall>)
    ensures AnalyzeNetworkForDatabase(a + b) == AnalyzeNetworkForDatabase(a) + AnalyzeNetworkForDatabase(b)
    decreases |a|
  {
    if |a| > 0 {
      var t := a[1..];
      assert a == [a[0]] + t;
      assert a + b == [a[0]] + (t + b);
      AnalyzeNetworkAppend(t, b);
      AnalyzeNetworkCons(a[0], t + b);
      AnalyzeNetworkCons(a[0], t);
    } else {
      assert a + b == b;
    }
  }

  /** One call in front of a list: its findings, then the list's. */
  lemma AnalyzeNetworkCons(call: CapturedCall, calls: seq<CapturedCall>)
    ensures AnalyzeNetworkForDatabase([call] + calls) == CallExposures(call) + AnalyzeNetworkForDatabase(calls)
  {
    assert ([call] + calls)[1..] == calls;
  }

  /** The traffic scan of one call reports exactly that call's findings. */
  lemma AnalyzeNetworkOne(call: CapturedCall)
    ensures AnalyzeNetworkForDatabase([call]) == CallExposures(call)
  {
    assert [call][1..] == [];
  }

  // --------------------------------------------------------- aggregation

  /** The keys the tallies of `analyzeDatabaseSecurity` count by. */
  function SeverityOf(e: DatabaseExposure): Severity {
    e.severity
  }

  function KindOf(e: DatabaseExposure): ExposureType {
    e.kind
  }

  function CountSeverity(es: seq<DatabaseExposure>, sev: Severity): nat {
    CountKey(es, SeverityOf, sev)
  }

  function CountKind(es: seq<DatabaseExposure>, kind: ExposureType): nat {
    CountKey(es, KindOf, kind)
  }

  /** Extending a prefix by one exposure adds it to exactly its own severity count. */
  lemma CountStep(all: seq<DatabaseExposure>, i: nat)
    requires i < |all|
    ensures forall sev :: CountSeverity(all[..i + 1], sev) == CountSeverity(all[..i], sev) + (if all[i].severity == sev then 1 else 0)
  {
    assert all[..i + 1][..i] == all[..i];
  }

  /** The per-severity counters of `analyzeDatabaseSecurity`. */
  method TallySeverities(all: seq<DatabaseExposure>) returns (critical: nat, high: nat, medium: nat, low: nat)
    ensures critical == CountSeverity(all, Critical)
    ensures high == CountSeverity(all, High)
    ensures medium == CountSeverity(all, Medium)
    ensures low == CountSeverity(all, Low)
    ensures critical + high + medium + low == |all|
  {
    critical, high, medium, low := 0, 0, 0, 0;
    var i := 0;
    while i < |all|
      invariant 0 <= i <= |all|
      invariant critical == CountSeverity(all[..i], Critical)
      invariant high == CountSeverity(all[..i], High)
      invariant medium == CountSeverity(all[..i], Medium)
      invariant low == CountSeverity(all[..i], Low)
      invariant critical + high + medium + low == i
    {
      CountStep(all, i);
      match all[i].severity {
        case Critical => critical := critical + 1;
        case High => high := high + 1;
        case Medium => medium := medium + 1;
        case Low => low := low + 1;
      }
      i := i + 1;
    }
    assert all[..i] == all;
  }

  /** Counting one more exposure into a summary of a prefix summarises the
      longer prefix and raises the total by one. */
  lemma SummaryStep(summary: map<ExposureType, nat>, all: seq<DatabaseExposure>, i: nat)
    requires i < |all| && Tallies(summary, all[..i], KindOf)
    ensures Tallies(Increment(summary, all[i].kind), all[..i + 1], KindOf)
    ensures SumValues(Increment(summary, all[i].kind)) == SumValues(summary) + 1
  {
    TallyStep(summary, all[..i], KindOf, all[i]);
    assert all[..i] + [all[i]] == all[..i + 1];
  }

  /** The per-type summary of `analyzeDatabaseSecurity`: a type is a key
      exactly when it occurs, with its number of occurrences as value. */
  method TallyKinds(all: seq<DatabaseExposure>) returns (summary: map<ExposureType, nat>)
    ensures forall k :: k in summary <==> CountKind(all, k) > 0
    ensures forall k :: k in summary ==> summary[k] == CountKind(all, k)
    ensures SumValues(summary) == |all|
  {
    summary := map[];
    var i := 0;
    while i < |all|
      invariant 0 <= i <= |all|
      invariant Tallies(summary, all[..i], KindOf)
      invariant SumValues(summary) == i
    {
      SummaryStep(summary, all, i);
      summary := Increment(summary, all[i].kind);
      i := i + 1;
    }
    assert all[..i] == all;
  }

  /** The tallies of `analyzeDatabaseSecurity` over a list of exposures. */
  method Tally(all: seq<DatabaseExposure>) returns (res: DatabaseScanResult)
    ensures res.exposures == all
    ensures res.totalExposures == |all|
    ensures res.criticalExposures == CountSeverity(all, Critical)
    ensures res.highExposures == CountSeverity(all, High)
    ensures res.mediumExposures == CountSeverity(all, Medium)
    ensures res.lowExposures == CountSeverity(all, Low)
    ensures res.criticalExposures + res.highExposures + res.mediumExposures + res.lowExposures == res.totalExposures
    ensures forall k :: k in res.summary <==> CountKind(all, k) > 0
    ensures forall k :: k in res.summary ==> res.summary[k] == CountKind(all, k)
    ensures SumValues(res.summary) == res.totalExposures
  {
    var critical, high, medium, low := TallySeverities(all);
    var summary := TallyKinds(all);
    res := DatabaseScanResult(|all|, critical, high, medium, low, all, summary);
  }

  /** `analyzeDatabaseSecurity`: script, endpoint and network exposures in
      that order, without deduplication, with per-severity and per-type tallies. */
  method AnalyzeDatabaseSecurity(scriptExposures: seq<DatabaseExposure>, endpointExposures: seq<DatabaseExposure>,
                                 networkCalls: seq<CapturedCall>)
    returns (res: DatabaseScanResult)
    ensures res.exposures == scriptExposures + endpointExposures + AnalyzeNetworkForDatabase(networkCalls)
    ensures res.totalExposures == |res.exposures|
    ensures res.criticalExposures == CountSeverity(res.exposures, Critical)
    ensures res.highExposures == CountSeverity(res.exposures, High)
    ensures res.mediumExposures == CountSeverity(res.exposures, Medium)
    ensures res.lowExposures == CountSeverity(res.exposures, Low)
    ensures forall k :: k in res.summary <==> CountKind(res.exposures, k) > 0
    ensures forall k :: k in res.summary ==> res.summary[k] == CountKind(res.exposures, k)
    ensures SumValues(res.summary) == res.totalExposures
  {
    var networkExposures := AnalyzeNetworkForDatabase(networkCalls);
    res := Tally(scriptExposures + endpointExposures + networkExposures);
  }
}
