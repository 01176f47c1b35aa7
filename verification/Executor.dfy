/** The agent's release executor: validate, render, upgrade (which migrates), verify, then record the
    revision or roll back. External commands are outcomes chosen by the environment. */
module Executor {
  import opened Wire

  const PERMISSIONS: nat := 24
  const MAX_TIMEOUT: nat := 1800

  // ---------------------------------------------------------------------------------------------
  // Request validation
  // ---------------------------------------------------------------------------------------------

  predicate LowerAlnum(c: char) { 'a' <= c <= 'z' || '0' <= c <= '9' }

  predicate DnsName(s: string) {
    0 < |s| && LowerAlnum(s[0]) && LowerAlnum(s[|s| - 1])
    && forall i :: 0 <= i < |s| ==> LowerAlnum(s[i]) || s[i] == '-'
  }

  predicate CredentialRef(s: string) {
    3 <= |s| <= 128 && Alphanumeric(s[0])
    && forall i :: 0 < i < |s| ==> IdChar(s[i]) || s[i] == ':' || s[i] == '/'
  }

  predicate ValidRequest(c: Content) {
    && DnsName(c.namespace) && |c.namespace| <= 63
    && DnsName(c.releaseName) && |c.releaseName| <= 53
    && DigestImage(c.image)
    && CredentialRef(c.credentialRef)
    && (c.mode.ValidateOnly? || c.mode.Release?)
    && (c.policy.Allow? || c.policy.BlockAfterMigration?)
    && 0 < c.migrationTimeout <= MAX_TIMEOUT && 0 < c.rolloutTimeout <= MAX_TIMEOUT
    && c.valuesJson.Canonical?
  }

  // ---------------------------------------------------------------------------------------------
  // Helm metadata
  // ---------------------------------------------------------------------------------------------

  /** A JSON member: absent, an unsigned 32-bit number (null decodes as 0), or anything else. */
  datatype Member = Missing | Number(n: nat) | NotANumber

  datatype Metadata = NotJson | Object(revision: Member, version: Member)

  function HelmRevision(m: Metadata): (r: Option<nat>)
    ensures r.Some? ==> r.value != 0
    ensures r.Some? ==> m.Object?
                        && if m.revision.Number? && m.revision.n != 0 then r.value == m.revision.n
                           else m.version.Number? && r.value == m.version.n
    ensures r.Some? <==> (m.Object? && !m.revision.NotANumber?
                          && ((m.revision.Number? && m.revision.n != 0) || (m.version.Number? && m.version.n != 0)))
  {
    match m
    case NotJson => None
    case Object(NotANumber, _) => None
    case Object(Number(n), v) => if n != 0 then Some(n) else NumericVersion(v)
    case Object(Missing, v) => NumericVersion(v)
  }

  function NumericVersion(v: Member): Option<nat> {
    if v.Number? && v.n != 0 then Some(v.n) else None
  }

  // ---------------------------------------------------------------------------------------------
  // Commands and their outcomes
  // ---------------------------------------------------------------------------------------------

  datatype Command =
    | CanI(index: nat)
    | HelmVersion
    | Lint
    | Template
    | Upgrade
    | Verify
    | ReadMetadata
    | Rollback(revision: nat)
    | RollbackVerify

  /** What one step meets: the progress frame may be refused (then the command never runs), the command
      may fail, and the job's context may be cancelled by the time the step returns. */
  datatype StepOutcome = StepOutcome(progressOk: bool, commandOk: bool, cancelled: bool)

  datatype Environment = Environment(
    resolver: bool,
    credential: bool,
    chart: bool,
    valuesFile: bool,
    metadata: Metadata,
    steps: seq<StepOutcome>,
    cancelledAtEnd: bool)

  /** One attempted step. `ran` says the command was issued, `ok` that it also succeeded. */
  datatype Attempt = Attempt(command: Command, ran: bool, ok: bool)

  datatype Execution = Execution(result: JobResult, trace: seq<Attempt>)

  /** The outcome of the n-th step; a script that has run out has lost its connection. */
  function Outcome(e: Environment, n: nat): StepOutcome {
    if n < |e.steps| then e.steps[n] else StepOutcome(false, false, e.cancelledAtEnd)
  }

  function Attempted(e: Environment, n: nat, c: Command): Attempt {
    var o := Outcome(e, n);
    Attempt(c, o.progressOk, o.progressOk && o.commandOk)
  }

  /** The context is cancelled once and stays cancelled, and a cancelled context refuses progress. */
  predicate Monotone(e: Environment) {
    && (forall i, j :: 0 <= i <= j < |e.steps| && e.steps[i].cancelled ==> e.steps[j].cancelled)
    && (forall i :: 0 <= i < |e.steps| && e.steps[i].cancelled ==> e.cancelledAtEnd)
    && (forall i :: 0 < i < |e.steps| && e.steps[i - 1].cancelled ==> !e.steps[i].progressOk)
  }

  /** The context is cancelled by the time attempt `k` begins: its progress and every later one is refused. */
  predicate CancelledFrom(e: Environment, k: nat) {
    e.cancelledAtEnd && forall i :: k <= i < |e.steps| ==> e.steps[i].cancelled && !e.steps[i].progressOk
  }

  /** The commands every release runs, in order, up to the rollout check. */
  function ForwardPlan(): seq<Command> {
    Permissions(PERMISSIONS) + [HelmVersion, Lint, Template, Upgrade, Verify]
  }

  function Permissions(n: nat): (p: seq<Command>)
    ensures |p| == n && forall i :: 0 <= i < n ==> p[i] == CanI(i)
  {
    seq(n, (i: nat) => CanI(i))
  }

  function Commands(trace: seq<Attempt>): (cs: seq<Command>)
    ensures |cs| == |trace| && forall i :: 0 <= i < |trace| ==> cs[i] == trace[i].command
  {
    seq(|trace|, i requires 0 <= i < |trace| => trace[i].command)
  }

  predicate Issued(trace: seq<Attempt>, c: Command) {
    exists i :: 0 <= i < |trace| && trace[i].command == c && trace[i].ran
  }

  predicate AllOk(trace: seq<Attempt>) {
    forall i :: 0 <= i < |trace| ==> trace[i].ran && trace[i].ok
  }

  // ---------------------------------------------------------------------------------------------
  // The reference definition: a release follows one of four shapes
  // ---------------------------------------------------------------------------------------------

  /** A trace that keeps the plan: it stops at the first failure, and only a failed rollout check of a
      release whose policy allows it, with a recorded revision, may be followed by a rollback. */
  predicate Lawful(c: Content, trace: seq<Attempt>) {
    var plan := ForwardPlan();
    var n := |plan|;
    if |trace| <= n then
      && Commands(trace) == plan[..|trace|]
      && (|trace| > 0 ==> AllOk(trace[..|trace| - 1]))
      && (c.mode.ValidateOnly? ==> |trace| <= PERMISSIONS + 1)
    else
      && c.mode.Release?
      && Commands(trace[..n]) == plan
      && AllOk(trace[..n - 1])
      && (if trace[n - 1].ok
          then |trace| == n + 1 && trace[n].command == ReadMetadata
          else && |trace| <= n + 2 && c.policy.Allow? && c.previousRevision != 0
               && trace[n].command == Rollback(c.previousRevision)
               && (|trace| == n + 2 ==> trace[n].ok && trace[n + 1].command == RollbackVerify))
  }

  /** The trace of a release that went through and whose revision was read. */
  predicate CompletedForward(trace: seq<Attempt>) {
    |trace| == |ForwardPlan()| + 1 && AllOk(trace)
  }

  /** The trace of a release whose upgrade succeeded, whose rollout check failed, and which was rolled
      back to `revision` and verified. */
  predicate CompletedRollback(trace: seq<Attempt>, revision: nat) {
    var n := |ForwardPlan()|;
    && |trace| == n + 2
    && AllOk(trace[..n - 1]) && trace[n - 2].command == Upgrade
    && trace[n - 1].command == Verify && !trace[n - 1].ok
    && trace[n].command == Rollback(revision) && trace[n].ran && trace[n].ok
    && trace[n + 1].command == RollbackVerify && trace[n + 1].ran && trace[n + 1].ok
  }

  // ---------------------------------------------------------------------------------------------
  // The executor
  // ---------------------------------------------------------------------------------------------

  function Aborted(): JobResult {
    JobResult(Cancelled, 0, 0, NoRollback, CancelledCode)
  }

  function Stopped(e: Environment, trace: seq<Attempt>, code: ErrorCode): Execution
    requires |trace| > 0
  {
    if Outcome(e, |trace| - 1).cancelled
    then Execution(Aborted(), trace)
    else Execution(Failure(code), trace)
  }

  function Run(c: Content, e: Environment): Execution {
    if !ValidRequest(c) then Execution(Failure(InvalidReleaseRequest), [])
    else if !e.resolver then Execution(Failure(CredentialResolverUnavailable), [])
    else if !e.credential then Execution(Failure(ClusterCredentialUnavailable), [])
    else CheckPermissions(c, e, [])
  }

  function CheckPermissions(c: Content, e: Environment, trace: seq<Attempt>): Execution
    requires |trace| <= PERMISSIONS
    decreases PERMISSIONS - |trace|
  {
    if |trace| == PERMISSIONS then CheckHelm(c, e, trace)
    else
      var t := trace + [Attempted(e, |trace|, CanI(|trace|))];
      if !t[|trace|].ok then Stopped(e, t, KubernetesPermissionDenied) else CheckPermissions(c, e, t)
  }

  function CheckHelm(c: Content, e: Environment, trace: seq<Attempt>): Execution {
    var t := trace + [Attempted(e, |trace|, HelmVersion)];
    if !t[|trace|].ok then Stopped(e, t, HelmUnavailable)
    else if c.mode.ValidateOnly? then Execution(JobResult(Succeeded, 0, 0, NoRollback, NoError), t)
    else if !e.chart then Execution(Failure(InvalidChartPath), t)
    else if !e.valuesFile then Execution(Failure(ValuesFileFailed), t)
    else Render(c, e, t)
  }

  function Render(c: Content, e: Environment, trace: seq<Attempt>): Execution {
    var t := trace + [Attempted(e, |trace|, Lint)];
    if !t[|trace|].ok then Stopped(e, t, RenderFailed)
    else
      var u := t + [Attempted(e, |t|, Template)];
      if !u[|t|].ok then Stopped(e, u, RenderFailed) else Apply(c, e, u)
  }

  function Apply(c: Content, e: Environment, trace: seq<Attempt>): Execution {
    var t := trace + [Attempted(e, |trace|, Upgrade)];
    if !t[|trace|].ok then Stopped(e, t, MigrationOrApplyFailed)
    else
      var u := t + [Attempted(e, |t|, Verify)];
      if u[|t|].ok then RecordRevision(c, e, u)
      else if Outcome(e, |t|).cancelled
      then Execution(Aborted(), u)
      else if c.policy != Allow || c.previousRevision == 0
      then Execution(JobResult(RollbackBlocked, 0, c.previousRevision, Blocked, RolloutFailedCompatibilityUnknown), u)
      else Revert(c, e, u)
  }

  function RecordRevision(c: Content, e: Environment, trace: seq<Attempt>): Execution {
    var t := trace + [Attempted(e, |trace|, ReadMetadata)];
    var revision := HelmRevision(e.metadata);
    if !t[|trace|].ok then Execution(JobResult(Failed, 0, c.previousRevision, NoRollback, HelmStatusFailed), t)
    else if revision.None? then Execution(JobResult(Failed, 0, c.previousRevision, NoRollback, HelmStatusInvalid), t)
    else Execution(JobResult(Succeeded, revision.value, c.previousRevision, NoRollback, NoError), t)
  }

  function Revert(c: Content, e: Environment, trace: seq<Attempt>): Execution {
    var t := trace + [Attempted(e, |trace|, Rollback(c.previousRevision))];
    if !t[|trace|].ok then Execution(JobResult(Failed, 0, c.previousRevision, RollbackFailed, RollbackFailedCode), t)
    else
      var u := t + [Attempted(e, |t|, RollbackVerify)];
      if !u[|t|].ok then Execution(JobResult(Failed, 0, c.previousRevision, RollbackFailed, RollbackVerifyFailed), u)
      else Execution(JobResult(RolledBack, c.previousRevision, c.previousRevision, RollbackSucceeded, NoError), u)
  }

  /** What the transport records and sends: a context cancelled by the end overrides the status. */
  function Reported(r: JobResult, cancelled: bool): JobResult {
    if cancelled then r.(status := Cancelled, code := CancelledCode) else r
  }

  function ReportedRun(c: Content, e: Environment): JobResult {
    Reported(Run(c, e).result, e.cancelledAtEnd)
  }

  // ---------------------------------------------------------------------------------------------
  // The executor as the program writes it: one external step after another
  // ---------------------------------------------------------------------------------------------

  class Session {
    const environment: Environment
    var trace: seq<Attempt>

    constructor (e: Environment)
      ensures environment == e && trace == []
    {
      environment := e;
      trace := [];
    }

    method RunStep(command: Command) returns (ok: bool)
      modifies this
      ensures trace == old(trace) + [Attempted(environment, |old(trace)|, command)]
      ensures ok == trace[|old(trace)|].ok
    {
      var o := Outcome(environment, |trace|);
      var sent := o.progressOk;
      ok := sent && o.commandOk;
      trace := trace + [Attempt(command, sent, ok)];
    }

    method Execute(c: Content) returns (r: JobResult)
      requires trace == []
      modifies this
      ensures Execution(r, trace) == Run(c, environment)
      ensures ValidRequest(c) && environment.resolver && environment.credential ==>
                Told(c, environment, Execution(r, trace))
    {
      RunIsTold(c, environment);
      if !ValidRequest(c) { return Failure(InvalidReleaseRequest); }
      if !environment.resolver { return Failure(CredentialResolverUnavailable); }
      if !environment.credential { return Failure(ClusterCredentialUnavailable); }
      var ok;
      var i := 0;
      while i < PERMISSIONS
        invariant i == |trace| <= PERMISSIONS
        invariant Run(c, environment) == CheckPermissions(c, environment, trace)
      {
        ok := RunStep(CanI(i));
        if !ok {
          if ContextCancelled() { return Aborted(); }
          return Failure(KubernetesPermissionDenied);
        }
        i := i + 1;
      }
      ok := RunStep(HelmVersion);
      if !ok {
        if ContextCancelled() { return Aborted(); }
        return Failure(HelmUnavailable);
      }
      if c.mode == ValidateOnly { return JobResult(Succeeded, 0, 0, NoRollback, NoError); }
      if !environment.chart { return Failure(InvalidChartPath); }
      if !environment.valuesFile { return Failure(ValuesFileFailed); }
      r := Deploy(c);
    }

    /** Everything after validation, from rendering on. */
    method Deploy(c: Content) returns (r: JobResult)
      modifies this
      ensures Execution(r, trace) == Render(c, environment, old(trace))
    {
      var ok := RunStep(Lint);
      if !ok {
        if ContextCancelled() { return Aborted(); }
        return Failure(RenderFailed);
      }
      ok := RunStep(Template);
      if !ok {
        if ContextCancelled() { return Aborted(); }
        return Failure(RenderFailed);
      }
      ok := RunStep(Upgrade);
      if !ok {
        if ContextCancelled() { return Aborted(); }
        return Failure(MigrationOrApplyFailed);
      }
      ok := RunStep(Verify);
      if ok {
        ok := RunStep(ReadMetadata);
        if !ok { return JobResult(Failed, 0, c.previousRevision, NoRollback, HelmStatusFailed); }
        var revision := HelmRevision(environment.metadata);
        if revision.None? { return JobResult(Failed, 0, c.previousRevision, NoRollback, HelmStatusInvalid); }
        return JobResult(Succeeded, revision.value, c.previousRevision, NoRollback, NoError);
      }
      if ContextCancelled() { return Aborted(); }
      if c.policy != Allow || c.previousRevision == 0 {
        return JobResult(RollbackBlocked, 0, c.previousRevision, Blocked, RolloutFailedCompatibilityUnknown);
      }
      ok := RunStep(Rollback(c.previousRevision));
      if !ok { return JobResult(Failed, 0, c.previousRevision, RollbackFailed, RollbackFailedCode); }
      ok := RunStep(RollbackVerify);
      if !ok { return JobResult(Failed, 0, c.previousRevision, RollbackFailed, RollbackVerifyFailed); }
      return JobResult(RolledBack, c.previousRevision, c.previousRevision, RollbackSucceeded, NoError);
    }

    predicate ContextCancelled()
      requires |trace| > 0
      reads this
    {
      Outcome(environment, |trace| - 1).cancelled
    }
  }

  // ---------------------------------------------------------------------------------------------
  // Theorems
  // ---------------------------------------------------------------------------------------------

  /** The commands so far are the first commands of the plan, and all of them succeeded. */
  predicate OnPlan(trace: seq<Attempt>) {
    && |trace| < |ForwardPlan()|
    && Commands(trace) == ForwardPlan()[..|trace|]
    && AllOk(trace)
  }

  /** What a verdict says about the commands that ran, in both directions. */
  predicate Truthful(c: Content, x: Execution) {
    && Lawful(c, x.trace)
    && (x.result.previousRevision == 0 || x.result.previousRevision == c.previousRevision)
    && (x.result.status == Succeeded && c.mode.Release? ==>
          CompletedForward(x.trace) && x.result.helmRevision != 0)
    && (x.result.status == RolledBack <==> CompletedRollback(x.trace, c.previousRevision))
    && (x.result.status == RolledBack ==>
          c.policy == Allow && c.previousRevision != 0 && x.result.helmRevision == c.previousRevision)
    && (x.result.status == RollbackBlocked ==>
          |x.trace| == |ForwardPlan()| && !x.trace[|x.trace| - 1].ok
          && (c.policy != Allow || c.previousRevision == 0))
    && !x.result.status.OtherStatus?
    && x.result.code !in {OperationIdConflict, RecoveryRequired, AgentUnavailable, InvalidOperationId}
  }

  lemma ExtendPlan(trace: seq<Attempt>, a: Attempt)
    requires OnPlan(trace) && a.command == ForwardPlan()[|trace|]
    ensures Commands(trace + [a]) == ForwardPlan()[..|trace| + 1]
    ensures a.ran && a.ok && |trace| + 1 < |ForwardPlan()| ==> OnPlan(trace + [a])
  {
  }

  /** A run that stopped on the plan at its last attempt is lawful and tells the truth. */
  lemma StoppedIsTruthful(c: Content, e: Environment, trace: seq<Attempt>, a: Attempt, code: ErrorCode)
    requires OnPlan(trace) && a.command == ForwardPlan()[|trace|] && |trace| + 1 < |ForwardPlan()|
    requires c.mode.ValidateOnly? ==> |trace| <= PERMISSIONS
    requires code !in {OperationIdConflict, RecoveryRequired, AgentUnavailable, InvalidOperationId}
    ensures Truthful(c, Stopped(e, trace + [a], code))
  {
    ExtendPlan(trace, a);
    assert (trace + [a])[..|trace|] == trace;
  }

  lemma {:induction false} PermissionsAreTruthful(c: Content, e: Environment, trace: seq<Attempt>)
    requires ValidRequest(c)
    requires |trace| <= PERMISSIONS && OnPlan(trace)
    ensures Truthful(c, CheckPermissions(c, e, trace))
    decreases PERMISSIONS - |trace|
  {
    if |trace| == PERMISSIONS {
      HelmIsTruthful(c, e, trace);
    } else {
      var a := Attempted(e, |trace|, CanI(|trace|));
      ExtendPlan(trace, a);
      if a.ok {
        PermissionsAreTruthful(c, e, trace + [a]);
      } else {
        StoppedIsTruthful(c, e, trace, a, KubernetesPermissionDenied);
      }
    }
  }

  lemma HelmIsTruthful(c: Content, e: Environment, trace: seq<Attempt>)
    requires ValidRequest(c)
    requires |trace| == PERMISSIONS && OnPlan(trace)
    ensures Truthful(c, CheckHelm(c, e, trace))
  {
    var a := Attempted(e, |trace|, HelmVersion);
    var t := trace + [a];
    ExtendPlan(trace, a);
    if !a.ok {
      StoppedIsTruthful(c, e, trace, a, HelmUnavailable);
    } else if c.mode.ValidateOnly? || !e.chart || !e.valuesFile {
      assert t[..|t| - 1] == trace;
    } else {
      RenderIsTruthful(c, e, t);
    }
  }

  lemma RenderIsTruthful(c: Content, e: Environment, trace: seq<Attempt>)
    requires c.mode.Release? && ValidRequest(c)
    requires |trace| == PERMISSIONS + 1 && OnPlan(trace)
    ensures Truthful(c, Render(c, e, trace))
  {
    var a := Attempted(e, |trace|, Lint);
    var t := trace + [a];
    ExtendPlan(trace, a);
    if !a.ok {
      StoppedIsTruthful(c, e, trace, a, RenderFailed);
    } else {
      var b := Attempted(e, |t|, Template);
      ExtendPlan(t, b);
      if !b.ok {
        StoppedIsTruthful(c, e, t, b, RenderFailed);
      } else {
        ApplyIsTruthful(c, e, t + [b]);
      }
    }
  }

  lemma ApplyIsTruthful(c: Content, e: Environment, trace: seq<Attempt>)
    requires c.mode.Release? && ValidRequest(c)
    requires |trace| == PERMISSIONS + 3 && OnPlan(trace)
    ensures Truthful(c, Apply(c, e, trace))
  {
    var a := Attempted(e, |trace|, Upgrade);
    var t := trace + [a];
    ExtendPlan(trace, a);
    if !a.ok {
      StoppedIsTruthful(c, e, trace, a, MigrationOrApplyFailed);
    } else {
      var b := Attempted(e, |t|, Verify);
      var u := t + [b];
      ExtendPlan(t, b);
      assert ForwardPlan()[..|t| + 1] == ForwardPlan();
      assert u[..|u| - 1] == t;
      if b.ok {
        RecordIsTruthful(c, e, u);
      } else if !Outcome(e, |t|).cancelled && c.policy == Allow && c.previousRevision != 0 {
        RevertIsTruthful(c, e, u);
      }
    }
  }

  /** The forward plan has been attempted to its end, and everything before the rollout check succeeded. */
  predicate AtVerify(trace: seq<Attempt>) {
    && |trace| == |ForwardPlan()|
    && Commands(trace) == ForwardPlan()
    && AllOk(trace[..|trace| - 1])
  }

  lemma RecordIsTruthful(c: Content, e: Environment, trace: seq<Attempt>)
    requires c.mode.Release? && AtVerify(trace) && trace[|trace| - 1].ran && trace[|trace| - 1].ok
    ensures Truthful(c, RecordRevision(c, e, trace))
  {
    var n := |trace|;
    var t := trace + [Attempted(e, n, ReadMetadata)];
    assert t[..n] == trace && t[..n - 1] == trace[..n - 1];
    assert forall i :: 0 <= i < n - 1 ==> trace[i] == trace[..n - 1][i];
  }

  lemma RevertIsTruthful(c: Content, e: Environment, trace: seq<Attempt>)
    requires c.mode.Release? && AtVerify(trace) && !trace[|trace| - 1].ok
    requires c.policy == Allow && c.previousRevision != 0
    ensures Truthful(c, Revert(c, e, trace))
  {
    var n := |trace|;
    var t := trace + [Attempted(e, n, Rollback(c.previousRevision))];
    assert t[..n] == trace && t[..n - 1] == trace[..n - 1];
    assert Commands(trace)[n - 1] == Verify && Commands(trace)[n - 2] == Upgrade;
    if t[n].ok {
      var u := t + [Attempted(e, n + 1, RollbackVerify)];
      assert u[..n] == trace && u[..n - 1] == trace[..n - 1];
    }
  }

  /** Every run keeps the plan, and its verdict says truly how far it got: "succeeded" only after the
      whole plan and with a revision, "rolled_back" exactly after upgrade, failed check, rollback and
      second check, and only where the policy and a recorded revision allow it. */
  lemma RunIsTruthful(c: Content, e: Environment)
    ensures Truthful(c, Run(c, e))
  {
    if ValidRequest(c) && e.resolver && e.credential {
      PermissionsAreTruthful(c, e, []);
    }
  }

  // ---------------------------------------------------------------------------------------------
  // What each end of a run reports
  // ---------------------------------------------------------------------------------------------

  /** What a failure at each command up to the upgrade is called. */
  function CodeAt(i: nat): ErrorCode {
    if i < PERMISSIONS then KubernetesPermissionDenied
    else if i == PERMISSIONS then HelmUnavailable
    else if i <= PERMISSIONS + 2 then RenderFailed
    else MigrationOrApplyFailed
  }

  /** How a run that attempted something can end, and what it reports then: the last attempt decides, with
      the request and what the environment held besides the commands. */
  predicate Told(c: Content, e: Environment, x: Execution) {
    var n := |ForwardPlan()|;
    && x.trace != []
    && var last := x.trace[|x.trace| - 1]; var cancelled := Outcome(e, |x.trace| - 1).cancelled;
    if |x.trace| < n && !last.ok then
      x.result == if cancelled then JobResult(Cancelled, 0, 0, NoRollback, CancelledCode)
                  else JobResult(Failed, 0, 0, NoRollback, CodeAt(|x.trace| - 1))
    else if |x.trace| < n then
      && |x.trace| == PERMISSIONS + 1
      && if c.mode.ValidateOnly? then x.result == JobResult(Succeeded, 0, 0, NoRollback, NoError)
         else !(e.chart && e.valuesFile)
              && x.result == JobResult(Failed, 0, 0, NoRollback,
                                       if !e.chart then InvalidChartPath else ValuesFileFailed)
    else if |x.trace| == n then
      !last.ok
      && if cancelled then x.result == JobResult(Cancelled, 0, 0, NoRollback, CancelledCode)
         else (c.policy != Allow || c.previousRevision == 0)
              && x.result == JobResult(RollbackBlocked, 0, c.previousRevision, Blocked,
                                       RolloutFailedCompatibilityUnknown)
    else if x.trace[n - 1].ok then
      && |x.trace| == n + 1
      && x.result == if !last.ok then JobResult(Failed, 0, c.previousRevision, NoRollback, HelmStatusFailed)
                     else match HelmRevision(e.metadata)
                          case None => JobResult(Failed, 0, c.previousRevision, NoRollback, HelmStatusInvalid)
                          case Some(revision) =>
                            JobResult(Succeeded, revision, c.previousRevision, NoRollback, NoError)
    else if !last.ok then
      x.result == JobResult(Failed, 0, c.previousRevision, RollbackFailed,
                            if |x.trace| == n + 1 then RollbackFailedCode else RollbackVerifyFailed)
    else
      && |x.trace| == n + 2
      && x.result == JobResult(RolledBack, c.previousRevision, c.previousRevision, RollbackSucceeded, NoError)
  }

  lemma {:induction false} PermissionsAreTold(c: Content, e: Environment, trace: seq<Attempt>)
    requires |trace| <= PERMISSIONS
    ensures Told(c, e, CheckPermissions(c, e, trace))
    decreases PERMISSIONS - |trace|
  {
    if |trace| == PERMISSIONS {
      HelmIsTold(c, e, trace);
    } else {
      PermissionsAreTold(c, e, trace + [Attempted(e, |trace|, CanI(|trace|))]);
    }
  }

  lemma HelmIsTold(c: Content, e: Environment, trace: seq<Attempt>)
    requires |trace| == PERMISSIONS
    ensures Told(c, e, CheckHelm(c, e, trace))
  {
    RenderIsTold(c, e, trace + [Attempted(e, |trace|, HelmVersion)]);
  }

  lemma RenderIsTold(c: Content, e: Environment, trace: seq<Attempt>)
    requires |trace| == PERMISSIONS + 1
    ensures Told(c, e, Render(c, e, trace))
  {
    var t := trace + [Attempted(e, |trace|, Lint)];
    ApplyIsTold(c, e, t + [Attempted(e, |t|, Template)]);
  }

  lemma ApplyIsTold(c: Content, e: Environment, trace: seq<Attempt>)
    requires |trace| == PERMISSIONS + 3
    ensures Told(c, e, Apply(c, e, trace))
  {
    var t := trace + [Attempted(e, |trace|, Upgrade)];
    var u := t + [Attempted(e, |t|, Verify)];
    assert |u| == |ForwardPlan()| && u[|u| - 1] == Attempted(e, |t|, Verify);
  }

  /** What every run reports. Before the first command it names the first thing that was missing; from then
      on the last attempt decides. */
  lemma RunIsTold(c: Content, e: Environment)
    ensures var x := Run(c, e);
      if ValidRequest(c) && e.resolver && e.credential then Told(c, e, x)
      else x == Execution(JobResult(Failed, 0, 0, NoRollback,
                                    if !ValidRequest(c) then InvalidReleaseRequest
                                    else if !e.resolver then CredentialResolverUnavailable
                                    else ClusterCredentialUnavailable), [])
  {
    PermissionsAreTold(c, e, []);
  }

  /** A release succeeds if and only if every command of the plan did and the metadata names a revision, and
      that is the revision it reports. */
  lemma SucceedsExactlyWhen(c: Content, e: Environment)
    requires c.mode.Release?
    ensures var x := Run(c, e); var revision := HelmRevision(e.metadata);
      && (x.result.status == Succeeded <==> CompletedForward(x.trace) && revision.Some?)
      && (x.result.status == Succeeded ==>
            x.result == JobResult(Succeeded, revision.value, c.previousRevision, NoRollback, NoError))
  {
    RunIsTruthful(c, e);
    RunIsTold(c, e);
  }

  /** What a report can say, whoever reads it: no foreign revision, and no code of the ledger's or the
      control plane's own. */
  lemma ReportIsOwn(c: Content, e: Environment)
    ensures ReportedRun(c, e).previousRevision == 0 || ReportedRun(c, e).previousRevision == c.previousRevision
    ensures ReportedRun(c, e).code !in {OperationIdConflict, RecoveryRequired, AgentUnavailable, InvalidOperationId}
  {
    RunIsTruthful(c, e);
  }

  /** A reported success or rollback is the verdict of the run itself. */
  lemma ReportOfRun(c: Content, e: Environment)
    requires c.mode.Release?
    ensures ReportedRun(c, e).status == Succeeded ==>
              && CompletedForward(Run(c, e).trace) && ReportedRun(c, e).helmRevision != 0
              && HelmRevision(e.metadata) == Some(ReportedRun(c, e).helmRevision)
    ensures ReportedRun(c, e).status == RolledBack ==>
              && CompletedRollback(Run(c, e).trace, c.previousRevision)
              && c.policy == Allow && ReportedRun(c, e).helmRevision == c.previousRevision != 0
  {
    RunIsTruthful(c, e);
    SucceedsExactlyWhen(c, e);
  }

  lemma CommandAt(c: Content, trace: seq<Attempt>, i: nat)
    requires Lawful(c, trace) && i < |trace|
    ensures i < |ForwardPlan()| ==> trace[i].command == ForwardPlan()[i]
    ensures i < |trace| - 1 && i < |ForwardPlan()| - 1 ==> trace[i].ran && trace[i].ok
    ensures i >= |ForwardPlan()| ==> !trace[i].command.Upgrade?
  {
  }

  /** Only a release upgrades, and only after every permission, the Helm check and both renderings passed. */
  lemma UpgradeIsGated(c: Content, e: Environment)
    requires Issued(Run(c, e).trace, Upgrade)
    ensures c.mode.Release?
    ensures |Run(c, e).trace| > PERMISSIONS + 3 && AllOk(Run(c, e).trace[..PERMISSIONS + 3])
    ensures var trace := Run(c, e).trace;
      && (forall i :: 0 <= i < PERMISSIONS ==> trace[i].command == CanI(i))
      && trace[PERMISSIONS].command == HelmVersion
      && trace[PERMISSIONS + 1].command == Lint && trace[PERMISSIONS + 2].command == Template
  {
    var trace := Run(c, e).trace;
    RunIsTruthful(c, e);
    var i :| 0 <= i < |trace| && trace[i].command == Upgrade && trace[i].ran;
    CommandAt(c, trace, i);
    forall j | 0 <= j < PERMISSIONS + 3
      ensures trace[j].ran && trace[j].ok && trace[j].command == ForwardPlan()[j]
    {
      CommandAt(c, trace, j);
    }
  }

  /** A rollback is issued only by a release that allows it and names a revision, to that revision, after
      an upgrade that succeeded and a rollout check that did not. */
  lemma RollbackIsGated(c: Content, e: Environment, revision: nat)
    requires Issued(Run(c, e).trace, Rollback(revision))
    ensures c.mode.Release? && c.policy == Allow && revision == c.previousRevision != 0
    ensures var trace := Run(c, e).trace;
      && |trace| > PERMISSIONS + 5
      && trace[PERMISSIONS + 3] == Attempt(Upgrade, true, true)
      && trace[PERMISSIONS + 4].command == Verify && !trace[PERMISSIONS + 4].ok
  {
    var trace := Run(c, e).trace;
    RunIsTruthful(c, e);
    var i :| 0 <= i < |trace| && trace[i].command == Rollback(revision) && trace[i].ran;
    CommandAt(c, trace, i);
    CommandAt(c, trace, PERMISSIONS + 3);
    CommandAt(c, trace, PERMISSIONS + 4);
  }

  /** No run issues the upgrade, which carries the migration hook, twice. */
  lemma UpgradesAtMostOnce(c: Content, e: Environment, i: nat, j: nat)
    requires i < |Run(c, e).trace| && j < |Run(c, e).trace|
    requires Run(c, e).trace[i].command == Upgrade && Run(c, e).trace[j].command == Upgrade
    ensures i == j == PERMISSIONS + 3
  {
    var trace := Run(c, e).trace;
    RunIsTruthful(c, e);
    var n := |ForwardPlan()|;
    if |trace| > n {
      assert forall k :: 0 <= k < n ==> Commands(trace[..n])[k] == trace[k].command;
    }
  }

  /** What reaches the ledger and the wire is "cancelled" exactly when the job's context was. Otherwise it is
      the run's own result; a cancellation replaces its status and code and leaves the rest. */
  lemma ReportsCancellation(c: Content, e: Environment)
    requires Monotone(e)
    ensures var told := ReportedRun(c, e); var own := Run(c, e).result;
      && (told.status == Cancelled <==> e.cancelledAtEnd)
      && (!e.cancelledAtEnd ==> told == own)
      && (e.cancelledAtEnd ==> told == JobResult(Cancelled, own.helmRevision, own.previousRevision, own.rollback,
                                                 CancelledCode))
  {
    RunCancelledOnlyByContext(c, e, []);
  }

  lemma {:induction false} RunCancelledOnlyByContext(c: Content, e: Environment, trace: seq<Attempt>)
    requires Monotone(e) && |trace| <= PERMISSIONS
    ensures CheckPermissions(c, e, trace).result.status == Cancelled ==> e.cancelledAtEnd
    decreases PERMISSIONS - |trace|
  {
    assert forall n: nat :: Outcome(e, n).cancelled ==> e.cancelledAtEnd;
    if |trace| < PERMISSIONS {
      RunCancelledOnlyByContext(c, e, trace + [Attempted(e, |trace|, CanI(|trace|))]);
    }
  }

  /** Every attempt in the trace met the outcome the environment had at its position. */
  predicate FollowsScript(e: Environment, trace: seq<Attempt>) {
    forall i :: 0 <= i < |trace| ==> trace[i] == Attempted(e, i, trace[i].command)
  }

  lemma {:induction false} PermissionsFollowScript(c: Content, e: Environment, trace: seq<Attempt>)
    requires |trace| <= PERMISSIONS && FollowsScript(e, trace)
    ensures FollowsScript(e, CheckPermissions(c, e, trace).trace)
    decreases PERMISSIONS - |trace|
  {
    if |trace| == PERMISSIONS {
      var t := trace + [Attempted(e, |trace|, HelmVersion)];
      if t[|trace|].ok { RenderFollowsScript(c, e, t); }
    } else {
      PermissionsFollowScript(c, e, trace + [Attempted(e, |trace|, CanI(|trace|))]);
    }
  }

  lemma RenderFollowsScript(c: Content, e: Environment, trace: seq<Attempt>)
    requires FollowsScript(e, trace)
    ensures FollowsScript(e, Render(c, e, trace).trace)
  {
    var t := trace + [Attempted(e, |trace|, Lint)];
    if t[|trace|].ok {
      ApplyFollowsScript(c, e, t + [Attempted(e, |t|, Template)]);
    }
  }

  lemma ApplyFollowsScript(c: Content, e: Environment, trace: seq<Attempt>)
    requires FollowsScript(e, trace)
    ensures FollowsScript(e, Apply(c, e, trace).trace)
  {
    var t := trace + [Attempted(e, |trace|, Upgrade)];
    var u := t + [Attempted(e, |t|, Verify)];
    assert FollowsScript(e, u);
  }

  /** Once the context is cancelled no further command is issued, whatever the run goes on to attempt. */
  lemma CancelledRunsNothingMore(c: Content, e: Environment, i: nat)
    requires Monotone(e)
    requires i + 1 < |Run(c, e).trace| && Outcome(e, i).cancelled
    ensures !Run(c, e).trace[i + 1].ran
  {
    PermissionsFollowScript(c, e, []);
    assert Run(c, e).trace[i + 1] == Attempted(e, i + 1, Run(c, e).trace[i + 1].command);
  }

  /** A run whose context is cancelled from attempt `k` on issues nothing from there on, and is reported as
      cancelled. */
  lemma CancelledFromReports(c: Content, e: Environment, k: nat)
    requires CancelledFrom(e, k)
    ensures ReportedRun(c, e).status == Cancelled
    ensures forall i :: k <= i < |Run(c, e).trace| ==> !Run(c, e).trace[i].ran
  {
    PermissionsFollowScript(c, e, []);
    var trace := Run(c, e).trace;
    forall i | k <= i < |trace| ensures !trace[i].ran {
      assert trace[i] == Attempted(e, i, trace[i].command);
    }
  }
}
