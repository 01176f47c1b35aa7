/** The values that cross the control channel, shared by the control plane and the agent. */
module Wire {

  datatype Option<+T> = None | Some(value: T)

  /** A job identifier. Nothing but its equality matters, except where it is checked for safe characters. */
  datatype JobId = JobId(text: string)

  /** Job and credential identifiers: one alphanumeric, then up to 63 of [A-Za-z0-9._-]. */
  predicate SafeJobId(id: JobId) {
    SafeName(id.text)
  }

  predicate SafeName(s: string) {
    1 <= |s| <= 64 && Alphanumeric(s[0]) && forall i :: 0 <= i < |s| ==> IdChar(s[i])
  }

  predicate Alphanumeric(c: char) {
    'a' <= c <= 'z' || 'A' <= c <= 'Z' || '0' <= c <= '9'
  }

  predicate IdChar(c: char) {
    Alphanumeric(c) || c == '.' || c == '_' || c == '-'
  }

  /** An image pinned by digest: anything but a newline, then "@sha256:" and 64 lower-case hex digits. */
  predicate DigestImage(s: string) {
    && |s| >= 73
    && s[|s| - 72..|s| - 64] == "@sha256:"
    && (forall i :: |s| - 64 <= i < |s| ==> '0' <= s[i] <= '9' || 'a' <= s[i] <= 'f')
    && forall i :: 0 <= i < |s| - 72 ==> s[i] != '\n'
  }

  datatype Mode = ValidateOnly | Release | OtherMode(text: string)

  datatype RollbackPolicy = Allow | BlockAfterMigration | OtherPolicy(text: string)

  datatype Compatibility = Absent | Safe | Unknown | OtherCompatibility(text: string)

  datatype Observability =
    | NoObservability
    | Disabled
    | Enabled(endpoint: string, namespace: string, correlation: string)

  /** Sanitised Helm values; `rest` is the canonical text of the remaining allowed keys. */
  datatype Values = Values(compatibility: Compatibility, observability: Observability, rest: string)

  /** The values document as the agent receives it: canonical JSON, or text that is not a JSON object. */
  datatype ValuesText = Canonical(values: Values) | Malformed(text: string)

  /** Every field of a release request that the fingerprint covers, which is all but the job ID. */
  datatype Content = Content(
    namespace: string,
    releaseName: string,
    chartPath: string,
    image: string,
    valuesJson: ValuesText,
    credentialRef: string,
    migrationTimeout: nat,
    rolloutTimeout: nat,
    policy: RollbackPolicy,
    mode: Mode,
    previousRevision: nat)

  datatype Request = Request(jobId: JobId, content: Content)

  /** SHA-256 over the canonical JSON of the content. A constructor is injective, which is the
      assumption made about the hash. */
  datatype Fingerprint = Sha256(content: Content)

  datatype ResultStatus = Succeeded | Failed | Cancelled | RolledBack | RollbackBlocked | OtherStatus(text: string)

  datatype RollbackOutcome = NoRollback | RollbackSucceeded | RollbackFailed | Blocked | OtherRollback(text: string)

  datatype ErrorCode =
    | NoError
    // the codes a retry may recover from
    | AgentUnavailable
    | AgentResultUnavailable
    | CancelUnavailable
    | DurableStateUnavailable
    | RecoveryRequired
    // ledger and transport
    | OperationIdConflict
    | InvalidOperationId
    | AgentDisconnected
    | StreamOrder
    // executor
    | CancelledCode
    | InvalidReleaseRequest
    | CredentialResolverUnavailable
    | ClusterCredentialUnavailable
    | KubernetesPermissionDenied
    | HelmUnavailable
    | InvalidChartPath
    | ValuesFileFailed
    | RenderFailed
    | MigrationOrApplyFailed
    | HelmStatusFailed
    | HelmStatusInvalid
    | RolloutFailedCompatibilityUnknown
    | RollbackFailedCode
    | RollbackVerifyFailed
    | OtherCode(text: string)

  /** A terminal Kubernetes result; revision 0 stands for "absent", as on the wire. */
  datatype JobResult = JobResult(
    status: ResultStatus,
    helmRevision: nat,
    previousRevision: nat,
    rollback: RollbackOutcome,
    code: ErrorCode)

  /** A failure that carries nothing but its code. */
  function Failure(code: ErrorCode): JobResult {
    JobResult(Failed, 0, 0, NoRollback, code)
  }
}
