/** The records the scanner, the verifier and the scan route exchange, after
    src/app/types/cyberscope.ts. The open string unions of the source for
    severity and exposure type are closed datatypes here. */
module Cyberscope {
  import opened Common

  datatype Severity = Critical | High | Medium | Low

  datatype ExposureType =
    | ConfigFile
    | ConnectionString
    | SqlDump
    | BackupFile
    | AdminInterface
    | ErrorMessage
    | DirectoryListing

  /** The description of a finding, kept as its template and argument;
      `DatabaseScanner.DescriptionText` renders the exact wording. */
  datatype Description =
    | Detected(kind: ExposureType, found: string)
    | SqlQueriesExposed
    | AdminReachable(endpoint: string)
    | ListingReachable(endpoint: string)
    | ConfigReachable(endpoint: string)
    | DatabaseRequest(url: string)
    | ErrorInResponse

  /** The recommendation of a finding; `DatabaseScanner.AdviceText` renders it. */
  datatype Advice =
    | AdviceFor(kind: ExposureType)
    | ParameterizeQueries
    | RestrictAdmin
    | SecureListing
    | SecureConfig
    | ReviewRequests

  /** One finding of the database exposure detector. `kind` is the source's `type`. */
  datatype DatabaseExposure = DatabaseExposure(
    kind: ExposureType,
    severity: Severity,
    source: string,
    description: Description,
    evidence: Option<string>,
    recommendation: Advice,
    url: Option<string>)

  datatype DatabaseScanResult = DatabaseScanResult(
    totalExposures: nat,
    criticalExposures: nat,
    highExposures: nat,
    mediumExposures: nat,
    lowExposures: nat,
    exposures: seq<DatabaseExposure>,
    summary: map<ExposureType, nat>)

  /** One credential reported by the credential detector; `kind` is the source's `type`. */
  datatype CredentialMatch = CredentialMatch(kind: string, value: string, line: int, context: string)

  datatype ScriptKind = External | Inline

  /** A script of the scanned page. Absent optional fields of the source are `None`. */
  datatype ScannedScript = ScannedScript(
    url: string,
    kind: ScriptKind,
    content: Option<string>,
    size: Option<nat>,
    credentials: Option<seq<CredentialMatch>>)

  /** A network call, as the network monitor of the page records it. */
  datatype NetworkCall = NetworkCall(
    url: string,
    httpMethod: string,
    status: int,
    size: int,
    resourceType: string,
    secure: bool,
    domain: string,
    timing: int)

  datatype NetworkSummary = NetworkSummary(secure: nat, insecure: nat, totalSize: int, domains: seq<string>)

  /** The answer of a scan. The optional `id`, `userId` and `cliMode` fields
      and the database, SEO and alert fields, which the scan route never
      fills, are not part of this model. */
  datatype ScanResult = ScanResult(
    url: string,
    scripts: seq<ScannedScript>,
    networkCalls: seq<NetworkCall>,
    timestamp: string,
    totalScripts: nat,
    totalCredentials: nat,
    totalNetworkCalls: nat,
    credentialsSummary: map<string, nat>,
    networkSummary: NetworkSummary)

  /** The answer of a domain verification attempt. */
  datatype DomainVerificationResult = DomainVerificationResult(
    verified: bool,
    methodName: Option<string>,
    error: Option<string>)

  /** A pending verification token; `expiresAt` is in milliseconds since the epoch. */
  datatype VerificationToken = VerificationToken(
    domain: string,
    token: string,
    expiresAt: int,
    userId: Option<string>)
}
