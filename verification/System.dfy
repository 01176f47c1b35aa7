/** What every run of the release protocol keeps, and what one run breaks. */
module System {
  import opened Wire
  import opened ReleaseValues
  import opened Protocol
  import opened Runs
  import Executor
  import Ledger
  import Agent
  import Releases

  // ---------------------------------------------------------------------------------------------
  // Theorems about every run of the protocol
  // ---------------------------------------------------------------------------------------------

  /** However often an operation is dispatched, reopened, or replayed, it is the same request to the same
      agent every time. */
  lemma SameRequestEveryTime(worlds: seq<World>, steps: seq<Step>, i: nat, d: Dispatch, e: Dispatch)
    requires IsRun(worlds, steps) && i < |worlds|
    requires d in worlds[i].dispatched && e in worlds[i].dispatched && d.request.jobId == e.request.jobId
    ensures d == e
  {
    var w := worlds[i];
    InvRun(worlds, steps, i);
    assert DispatchSound(w.agents, w.identities, d);
    assert DispatchSound(w.agents, w.identities, e);
  }

  /** Between this control plane and these agents an operation-ID conflict cannot be reported, nor an
      unsafe operation ID. */
  lemma ConflictIsUnreachable(worlds: seq<World>, steps: seq<Step>, i: nat, x: nat, k: nat)
    requires IsRun(worlds, steps) && i < |worlds|
    requires x in worlds[i].agents && k < |worlds[i].agents[x].sent|
    ensures worlds[i].agents[x].sent[k].result.code !in {OperationIdConflict, InvalidOperationId}
  {
    var w := worlds[i];
    var a := w.agents[x];
    InvRun(worlds, steps, i);
    assert Informed(w.identities, x, a);
    assert SentSound(w.identities, x, a.finished, a.sent[k]);
    var r := Request(a.sent[k].id, w.identities[a.sent[k].id].content);
    if Backed(a.finished, r, a.sent[k].result) {
      BackedResult(a.finished, r, a.sent[k].result);
    }
  }

  /** The execution that stands behind a row's verdict. */
  lemma ExecutionBehind(w: World, pk: nat) returns (e: Executor.Environment)
    requires Inv(w) && pk < |w.table.rows| && NeedsEvidence(w.table.rows[pk].status)
    ensures var row := w.table.rows[pk];
      && row.target in w.targets && w.targets[row.target].agent in w.agents
      && Ran(w.agents[w.targets[row.target].agent].finished, RowRequest(w.targets, row), e)
      && Executor.ReportedRun(RowRequest(w.targets, row).content, e).status == row.status.verdict
      && Executor.ReportedRun(RowRequest(w.targets, row).content, e).helmRevision == row.helmRevision
  {
    var row := w.table.rows[pk];
    assert RowKnown(w.targets, w.identities, row) && RowBacked(w.targets, w.agents, row);
    var r := RowRequest(w.targets, row);
    var finished := w.agents[w.targets[row.target].agent].finished;
    var k :| 0 <= k < |finished| && finished[k].request == r
             && Executor.ReportedRun(r.content, finished[k].environment).status == row.status.verdict
             && Executor.ReportedRun(r.content, finished[k].environment).helmRevision == row.helmRevision;
    e := finished[k].environment;
    assert Informed(w.identities, w.targets[row.target].agent, w.agents[w.targets[row.target].agent]);
    assert finished[k] == Agent.Finished(r, e, true);
  }

  predicate Ran(finished: seq<Agent.Finished>, r: Request, e: Executor.Environment) {
    Agent.Finished(r, e, true) in finished
  }

  /** A row ends rolled back, directly or by replay after a crash, only if its values declared the
      migration safe, a previous revision was on record, and its agent ran this very request: the upgrade
      succeeded, the rollout check failed, and the rollback to that revision and its check succeeded. */
  lemma RolledBackOnlyWhenSafe(worlds: seq<World>, steps: seq<Step>, i: nat, pk: nat)
    returns (e: Executor.Environment)
    requires IsRun(worlds, steps) && i < |worlds| && pk < |worlds[i].table.rows|
    requires worlds[i].table.rows[pk].status == Releases.Ended(RolledBack)
    ensures var w := worlds[i]; var row := w.table.rows[pk];
      && row.values.compatibility == Safe && row.previousRevision != 0 && row.helmRevision == row.previousRevision
      && row.target in w.targets && w.targets[row.target].agent in w.agents
      && Ran(w.agents[w.targets[row.target].agent].finished, RowRequest(w.targets, row), e)
      && Executor.CompletedRollback(Executor.Run(RowRequest(w.targets, row).content, e).trace, row.previousRevision)
  {
    InvRun(worlds, steps, i);
    e := ExecutionBehind(worlds[i], pk);
    Executor.ReportOfRun(RowRequest(worlds[i].targets, worlds[i].table.rows[pk]).content, e);
  }

  /** A row that says "succeeded" carries the revision that Helm named, and its agent completed the whole
      forward plan. */
  lemma SucceededOnlyWhenVerified(worlds: seq<World>, steps: seq<Step>, i: nat, pk: nat)
    returns (e: Executor.Environment)
    requires IsRun(worlds, steps) && i < |worlds| && pk < |worlds[i].table.rows|
    requires worlds[i].table.rows[pk].status == Releases.Ended(Succeeded)
    ensures var w := worlds[i]; var row := w.table.rows[pk];
      && row.helmRevision != 0 && Executor.HelmRevision(e.metadata) == Some(row.helmRevision)
      && row.target in w.targets && w.targets[row.target].agent in w.agents
      && Ran(w.agents[w.targets[row.target].agent].finished, RowRequest(w.targets, row), e)
      && Executor.CompletedForward(Executor.Run(RowRequest(w.targets, row).content, e).trace)
  {
    InvRun(worlds, steps, i);
    e := ExecutionBehind(worlds[i], pk);
    Executor.ReportOfRun(RowRequest(worlds[i].targets, worlds[i].table.rows[pk]).content, e);
  }

  /** Never twice blindly. Of all agents only the one an operation was issued to ever starts it; there, two
      starts are separated by the recording of the first result and the eviction of its entry; and every
      older row with the same key is dead, so that its operation is not dispatched again, as the next
      theorem says. */
  lemma NeverTwiceBlindly(worlds: seq<World>, steps: seq<Step>, i: nat, x: nat, y: nat, m: nat, n: nat, id: JobId)
    requires IsRun(worlds, steps) && i < |worlds| && x in worlds[i].agents && y in worlds[i].agents
    requires m < |worlds[i].agents[x].log| && worlds[i].agents[x].log[m] == Agent.Started(id)
    requires n < |worlds[i].agents[y].log| && worlds[i].agents[y].log[n] == Agent.Started(id)
    ensures x == y
    ensures m < n ==> Agent.Separated(worlds[i].agents[x].log, id, m, n)
    ensures forall p, q :: 0 <= p < q < |worlds[i].table.rows| && worlds[i].table.rows[q].operationId == id
              && Releases.KeyOf(worlds[i].table.rows[p]) == Releases.KeyOf(worlds[i].table.rows[q])
              ==> !Releases.Live(worlds[i].table.rows[p])
  {
    var w := worlds[i];
    InvRun(worlds, steps, i);
    assert Informed(w.identities, x, w.agents[x]) && Informed(w.identities, y, w.agents[y]);
    assert StartSound(w.identities, x, w.agents[x].log[m]);
    assert StartSound(w.identities, y, w.agents[y].log[n]);
    if m < n {
      assert Agent.LogAgrees(w.agents[x], id);
      Agent.StartsAreSeparated(w.agents[x].log, id, m, n);
    }
  }

  /** Once a row is dead, its operation is never dispatched again. */
  lemma {:induction false} DeadRowsAreNotDispatched(worlds: seq<World>, steps: seq<Step>, i: nat, j: nat, pk: nat)
    requires IsRun(worlds, steps) && i <= j < |worlds|
    requires pk < |worlds[i].table.rows| && !Releases.Live(worlds[i].table.rows[pk])
    ensures pk < |worlds[j].table.rows| && worlds[j].table.rows[pk] == worlds[i].table.rows[pk]
    ensures worlds[i].dispatched <= worlds[j].dispatched
    ensures NotDispatched(worlds[j].dispatched[|worlds[i].dispatched|..], worlds[i].table.rows[pk].operationId)
    decreases j - i
  {
    if i < j {
      DeadRowsAreNotDispatched(worlds, steps, i, j - 1, pk);
      InvRun(worlds, steps, j - 1);
      assert Next(worlds[j - 1], steps[j - 1], worlds[j]);
      DeadRowStep(worlds[j - 1], steps[j - 1], worlds[j], pk);
      var n, m := |worlds[i].dispatched|, |worlds[j - 1].dispatched|;
      assert worlds[j].dispatched[n..] == worlds[j - 1].dispatched[n..] + worlds[j].dispatched[m..];
    }
  }

  predicate NotDispatched(dispatched: seq<Dispatch>, id: JobId) {
    forall d :: d in dispatched ==> d.request.jobId != id
  }

  lemma DeadRowStep(v: World, step: Step, w: World, pk: nat)
    requires Inv(v) && Next(v, step, w) && pk < |v.table.rows| && !Releases.Live(v.table.rows[pk])
    ensures pk < |w.table.rows| && w.table.rows[pk] == v.table.rows[pk]
    ensures v.dispatched <= w.dispatched
    ensures NotDispatched(w.dispatched[|v.dispatched|..], v.table.rows[pk].operationId)
  {
    assert RowKnown(v.targets, v.identities, v.table.rows[pk]);
    match step
    case TableStep(op) =>
      Releases.RowsEvolve(v.table, op);
      if op.Commit? { DeadRowCommit(v, op.target, op.newId, pk); }
    case Answer(thread, result) =>
      Releases.RowsEvolve(v.table, Releases.WriteResult(thread.pk, result, thread.request.content.previousRevision));
    case Unreachable(thread) => Releases.RowsEvolve(v.table, Releases.WriteUnavailable(thread.pk));
    case _ =>
  }

  lemma DeadRowCommit(v: World, target: nat, newId: JobId, pk: nat)
    requires Inv(v) && pk < |v.table.rows| && !Releases.Live(v.table.rows[pk])
    requires Releases.CanApply(v.table, Releases.Commit(target, newId)) && target in v.targets && newId !in v.identities
    ensures v.dispatched <= AfterCommit(v, target, newId).dispatched
    ensures NotDispatched(AfterCommit(v, target, newId).dispatched[|v.dispatched|..], v.table.rows[pk].operationId)
  {
    assert RowKnown(v.targets, v.identities, v.table.rows[pk]);
    assert Releases.LockHolds(v.table, target);
  }

  // ---------------------------------------------------------------------------------------------
  // What is sent, and what is stored
  // ---------------------------------------------------------------------------------------------

  /** Every dispatch of a row's operation, at any time of any run, goes to the agent of the row's target and
      carries what target and row say. */
  lemma DispatchCarriesRow(worlds: seq<World>, steps: seq<Step>, i: nat, pk: nat, d: Dispatch)
    requires IsRun(worlds, steps) && i < |worlds| && pk < |worlds[i].table.rows|
    requires d in worlds[i].dispatched && d.request.jobId == worlds[i].table.rows[pk].operationId
    ensures var w := worlds[i]; var row := w.table.rows[pk];
      && row.target in w.targets && d.agent == w.targets[row.target].agent
      && Releases.Carries(d.request.content, w.targets[row.target], row)
  {
    var w := worlds[i];
    InvRun(worlds, steps, i);
    assert DispatchSound(w.agents, w.identities, d);
    assert RowKnown(w.targets, w.identities, w.table.rows[pk]);
    assert Releases.RowSound(w.table.rows[pk]);
    Releases.DispatchCarries(w.targets[w.table.rows[pk].target], w.table.rows[pk]);
  }

  /** A request that only validates a target: nothing to migrate to, and nothing to roll back to. */
  predicate Validates(c: Content, t: Releases.Target) {
    && c.namespace == t.namespace && c.releaseName == t.releaseName && c.credentialRef == t.credentialRef
    && c.mode == ValidateOnly && c.policy == BlockAfterMigration && c.previousRevision == 0
    && c.image == VALIDATION_IMAGE && c.chartPath == Releases.CHART_PATH
    && c.migrationTimeout == c.rolloutTimeout == Releases.TIMEOUT
    && c.valuesJson == Canonical(Values(Absent, NoObservability, "{}"))
  }

  /** A dispatch is one of a row's operation, or it validates a target. */
  predicate HasOrigin(w: World, d: Dispatch) {
    || (exists pk :: 0 <= pk < |w.table.rows| && w.table.rows[pk].operationId == d.request.jobId)
    || (exists t :: t in w.targets && w.targets[t].agent == d.agent && Validates(d.request.content, w.targets[t]))
  }

  /** Nothing else is ever dispatched. */
  lemma {:induction false} DispatchesHaveOrigin(worlds: seq<World>, steps: seq<Step>, i: nat, d: Dispatch)
    requires IsRun(worlds, steps) && i < |worlds| && d in worlds[i].dispatched
    ensures HasOrigin(worlds[i], d)
  {
    if i > 0 {
      InvRun(worlds, steps, i - 1);
      assert Next(worlds[i - 1], steps[i - 1], worlds[i]);
      RowsStay(worlds[i - 1], steps[i - 1], worlds[i]);
      if d in worlds[i - 1].dispatched {
        DispatchesHaveOrigin(worlds, steps, i - 1, d);
        OriginStays(worlds[i - 1], steps[i - 1], worlds[i], d);
      } else {
        NewDispatch(worlds[i - 1], steps[i - 1], worlds[i], d);
      }
    }
  }

  lemma OriginStays(v: World, step: Step, w: World, d: Dispatch)
    requires Inv(v) && Next(v, step, w) && HasOrigin(v, d)
    ensures HasOrigin(w, d)
  {
    RowsStay(v, step, w);
    if pk :| 0 <= pk < |v.table.rows| && v.table.rows[pk].operationId == d.request.jobId {
      assert w.table.rows[pk].operationId == d.request.jobId;
    }
  }

  lemma NewDispatch(v: World, step: Step, w: World, d: Dispatch)
    requires Inv(v) && Next(v, step, w) && d in w.dispatched && d !in v.dispatched
    ensures HasOrigin(w, d)
  {
    match step
    case TableStep(op) =>
      var s := v.table.locks[op.target];
      assert Releases.LockHolds(v.table, op.target);
      var pk := if s.decision.Reopen? then s.decision.pk else |v.table.rows|;
      assert w.table.rows[pk].operationId == d.request.jobId;
    case Validate(t, id) => assert Validates(d.request.content, w.targets[t]);
    case _ =>
  }

  /** Over every run: a start that joins a release in progress sends nothing. Any other start sends exactly one
      request, for a row with its own key that is active from then on, and its thread waits for the answer. */
  lemma StartDispatchesOnce(worlds: seq<World>, steps: seq<Step>, j: nat) returns (pk: nat)
    requires IsRun(worlds, steps) && j < |steps| && steps[j].TableStep? && steps[j].op.Commit?
    ensures var v, w := worlds[j], worlds[j + 1]; var target := steps[j].op.target;
      && target in v.table.locks && target !in w.table.locks && target in v.targets
      && var s := v.table.locks[target];
      && pk < |w.table.rows|
      && Releases.KeyOf(w.table.rows[pk]) == Releases.Key(target, s.image, s.chartVersion, Digest(s.values))
      && if s.decision.Join? then
           w.dispatched == v.dispatched && w.threads == v.threads && w.table.rows == v.table.rows
         else
           && w.table.rows[pk].status == Releases.Active(Releases.Validating)
           && |w.dispatched| == |v.dispatched| + 1 && v.dispatched <= w.dispatched
           && w.dispatched[|v.dispatched|].request.jobId == w.table.rows[pk].operationId
           && w.threads == v.threads + {Thread(pk, w.dispatched[|v.dispatched|].request)}
  {
    InvRun(worlds, steps, j);
    assert Next(worlds[j], steps[j], worlds[j + 1]);
    var s := worlds[j].table.locks[steps[j].op.target];
    assert Releases.LockHolds(worlds[j].table, steps[j].op.target);
    pk := match s.decision case Join(k) => k case Reopen(k, _) => k case Create(_) => |worlds[j].table.rows|;
  }

  /** Over every run: the revision a row may be rolled back to is that of the newest success which its own
      target had when the row's start read the table, before the row was there; it never changes. */
  lemma {:induction false} RowNamesNewestSuccess(worlds: seq<World>, steps: seq<Step>, i: nat, pk: nat)
    returns (k: nat)
    requires IsRun(worlds, steps) && i < |worlds| && pk < |worlds[i].table.rows|
    ensures k < i && |worlds[k].table.rows| <= pk
    ensures var row := worlds[i].table.rows[pk];
      Releases.PreviousOf(worlds[k].table.rows, row.target, row.previousRevision)
  {
    assert i > 0;
    InvRun(worlds, steps, i - 1);
    assert Next(worlds[i - 1], steps[i - 1], worlds[i]);
    RowsStay(worlds[i - 1], steps[i - 1], worlds[i]);
    if pk < |worlds[i - 1].table.rows| {
      k := RowNamesNewestSuccess(worlds, steps, i - 1, pk);
    } else {
      RowCreated(worlds[i - 1], steps[i - 1], worlds[i], pk);
      k := LookupBehindLock(worlds, steps, i - 1, steps[i - 1].op.target);
    }
  }

  lemma RowCreated(v: World, step: Step, w: World, pk: nat)
    requires Inv(v) && Next(v, step, w) && |v.table.rows| <= pk < |w.table.rows|
    ensures pk == |v.table.rows| && step.TableStep? && step.op.Commit?
    ensures step.op.target in v.table.locks && v.table.locks[step.op.target].decision.Create?
    ensures var row := w.table.rows[pk];
      && row.target == step.op.target && row.operationId == step.op.newId
      && row.previousRevision == v.table.locks[step.op.target].decision.previousRevision
  {
  }

  lemma {:induction false} LookupBehindLock(worlds: seq<World>, steps: seq<Step>, i: nat, target: nat)
    returns (k: nat)
    requires IsRun(worlds, steps) && i < |worlds|
    requires target in worlds[i].table.locks && worlds[i].table.locks[target].decision.Create?
    ensures k < i && |worlds[k].table.rows| <= |worlds[i].table.rows|
    ensures Releases.PreviousOf(worlds[k].table.rows, target,
                                worlds[i].table.locks[target].decision.previousRevision)
  {
    assert i > 0;
    InvRun(worlds, steps, i - 1);
    assert Next(worlds[i - 1], steps[i - 1], worlds[i]);
    RowsStay(worlds[i - 1], steps[i - 1], worlds[i]);
    var before := worlds[i - 1].table;
    if target in before.locks && before.locks[target] == worlds[i].table.locks[target] {
      k := LookupBehindLock(worlds, steps, i - 1, target);
    } else {
      k := i - 1;
      Releases.LookupDecides(before, steps[i - 1].op);
    }
  }

  /** Over every run: a result that reaches the thread of an active row is stored in that row as it was
      reported, success as success, and in no other row. The waiting thread is done. */
  lemma AnswerIsStored(worlds: seq<World>, steps: seq<Step>, j: nat)
    requires IsRun(worlds, steps) && j < |steps| && steps[j].Answer?
    requires steps[j].thread.pk < |worlds[j].table.rows| && worlds[j].table.rows[steps[j].thread.pk].status.Active?
    ensures var pk := steps[j].thread.pk; var result := steps[j].result; var w := worlds[j + 1];
      && steps[j].thread !in w.threads && |w.table.rows| == |worlds[j].table.rows|
      && (forall i :: 0 <= i < |w.table.rows| && i != pk ==> w.table.rows[i] == worlds[j].table.rows[i])
      && w.table.rows[pk].operationId == steps[j].thread.request.jobId
      && (result.status == Succeeded ==> w.table.rows[pk].status == Releases.Ended(Succeeded))
      && Releases.Holds(worlds[j].table.rows[pk], w.table.rows[pk], result, worlds[j].table.rows[pk].previousRevision)
  {
    var thread := steps[j].thread;
    InvRun(worlds, steps, j);
    assert Next(worlds[j], steps[j], worlds[j + 1]);
    assert ThreadSound(worlds[j].targets, worlds[j].table.rows, thread);
    RowsStay(worlds[j], steps[j], worlds[j + 1]);
    Releases.ResultIsStored(worlds[j].table, thread.pk, steps[j].result, thread.request.content.previousRevision);
  }

  /** Targets registered under valid names get requests that pass the agent's validation, every time. */
  lemma DispatchesAreValid(t: Releases.Target, row: Releases.Row)
    requires Executor.DnsName(t.namespace) && |t.namespace| <= 63
    requires Executor.DnsName(t.releaseName) && |t.releaseName| <= 53 && Executor.CredentialRef(t.credentialRef)
    requires Releases.RowSound(row)
    ensures Executor.ValidRequest(
              Releases.DispatchOf(t, row.image, row.values, row.operationId, row.previousRevision).content)
  {
  }

  // ---------------------------------------------------------------------------------------------
  // The limit of the promise: a disconnect is not recoverable
  // ---------------------------------------------------------------------------------------------

  /** The agent still runs the first operation of a release when its stream is lost. */
  function Lost(w: World, t: nat, r: Request): World
    requires t in w.targets && w.targets[t].agent in w.agents && |w.table.rows| == 1
  {
    var x := w.targets[t].agent;
    var row := Releases.WithResult(w.table.rows[0], Failure(AgentDisconnected), r.content.previousRevision);
    w.(table := w.table.(rows := [row]), threads := w.threads - {Thread(0, r)},
       agents := w.agents[x := Agent.AfterReconnect(w.agents[x], map[])])
  }

  lemma StreamLost(w: World, t: nat, r: Request)
    requires Reachable(w) && t in w.targets && w.targets[t].agent in w.agents && |w.table.rows| == 1
    requires w.table.rows[0].status.Active? && Thread(0, r) in w.threads && w.agents[w.targets[t].agent].loop.Idle?
    ensures Reachable(Lost(w, t, r))
  {
    var x := w.targets[t].agent;
    var op := Releases.WriteResult(0, Failure(AgentDisconnected), r.content.previousRevision);
    var told := AfterReturn(w, Thread(0, r), op);
    StepReachable(w, Answer(Thread(0, r), Failure(AgentDisconnected)), told);
    assert told.table.rows
           == [Releases.WithResult(w.table.rows[0], Failure(AgentDisconnected), r.content.previousRevision)];
    StepReachable(told, AgentStep(x, Agent.Reconnect(map[])), Lost(w, t, r));
  }

  /** A retry after a disconnect is a new operation. For every release there is a run in which its agent
      starts it twice: the stream is lost while the first operation runs, the row fails with a code that is
      not recoverable, and the retry's operation starts beside the first. */
  lemma DisconnectedReleaseStartsTwice(w0: World, t: nat, image: string, chartVersion: string, values: Values,
                                       a: JobId, b: JobId)
    returns (w: World)
    requires Init(w0) && t in w0.targets && Releases.Acceptable(image, values)
    requires SafeJobId(a) && SafeJobId(b) && a != b
    ensures Reachable(w) && t in w.targets && w.targets[t].agent in w.agents
    ensures |w.table.rows| == 2 && Releases.KeyOf(w.table.rows[0]) == Releases.KeyOf(w.table.rows[1])
    ensures w.table.rows[0].operationId == a && w.table.rows[1].operationId == b
    ensures var g := w.agents[w.targets[t].agent];
      && 0 in g.executing && 1 in g.executing && g.executing[0].request.jobId == a && g.executing[1].request.jobId == b
      && g.executing[0].connection < g.executing[1].connection == g.connection
  {
    var v := FirstLaunches(w0, t, image, chartVersion, values, a);
    var lost := LosesStream(v, t, Releases.DispatchOf(w0.targets[t], image, values, a, 0));
    w := RetryLaunches(lost, t, image, chartVersion, values, b);
  }

  lemma FirstLaunches(w0: World, t: nat, image: string, chartVersion: string, values: Values, a: JobId)
    returns (v: World)
    requires Init(w0) && t in w0.targets && Releases.Acceptable(image, values) && SafeJobId(a)
    ensures Reachable(v) && v.targets == w0.targets && v.targets[t].agent in v.agents && v.identities.Keys == {a}
    ensures var r := Releases.DispatchOf(w0.targets[t], image, values, a, 0);
      && v.agents[v.targets[t].agent]
         == Agent.Launched(Agent.INITIAL, r, map[r.jobId := Ledger.InFlight(Sha256(r.content), 0)])
      && Thread(0, r) in v.threads
    ensures var s := Releases.Start(image, chartVersion, values, Releases.Create(0));
      v.table == Releases.Table([Releases.Created(t, s, a)], map[])
  {
    InitReachable(w0);
    var x := w0.targets[t].agent;
    NewReleaseStarts(w0, t, image, chartVersion, values, a);
    var w1 := NewRelease(w0, t, image, chartVersion, values, a);
    var r := Releases.DispatchOf(w0.targets[t], image, values, a, 0);
    var disk := AgentLaunchesWithRoom(w1, x, r, 0);
    v := WithAgent(w1, x, Agent.Launched(w1.agents[x], r, disk));
  }

  lemma LosesStream(v: World, t: nat, r: Request) returns (lost: World)
    requires Reachable(v) && t in v.targets && v.targets[t].agent in v.agents && |v.table.rows| == 1
    requires v.table.rows[0].status.Active? && Thread(0, r) in v.threads
    requires v.agents[v.targets[t].agent]
             == Agent.Launched(Agent.INITIAL, r, map[r.jobId := Ledger.InFlight(Sha256(r.content), 0)])
    ensures Reachable(lost) && lost.targets == v.targets && lost.identities == v.identities
    ensures lost.agents.Keys == v.agents.Keys
    ensures lost.table.locks == v.table.locks && |lost.table.rows| == 1
    ensures Releases.KeyOf(lost.table.rows[0]) == Releases.KeyOf(v.table.rows[0])
    ensures lost.table.rows[0].operationId == v.table.rows[0].operationId
    ensures lost.table.rows[0].status == Releases.Ended(Failed) && lost.table.rows[0].code == AgentDisconnected
    ensures var g := lost.agents[v.targets[t].agent];
      && g.loop.Idle? && g.active == {} && g.starts == 1
      && g.disk == map[r.jobId := Ledger.InFlight(Sha256(r.content), 0)]
      && 0 in g.executing && g.executing[0].request == r && g.executing[0].connection < g.connection
  {
    StreamLost(v, t, r);
    lost := Lost(v, t, r);
  }

  lemma RetryLaunches(v: World, t: nat, image: string, chartVersion: string, values: Values, b: JobId)
    returns (w: World)
    requires Reachable(v) && t in v.targets && v.targets[t].agent in v.agents && v.table.locks == map[]
    requires Releases.Acceptable(image, values) && SafeJobId(b) && b !in v.identities
    requires |v.table.rows| == 1 && v.table.rows[0].operationId != b
    requires v.table.rows[0].status == Releases.Ended(Failed) && v.table.rows[0].code == AgentDisconnected
    requires var g := v.agents[v.targets[t].agent];
      && g.loop.Idle? && g.active == {} && g.starts == 1 && b !in g.disk && |g.disk| == 1 && 0 in g.executing
    ensures Reachable(w) && w.targets == v.targets && w.agents.Keys == v.agents.Keys
    ensures |w.table.rows| == 2 && w.table.rows[0] == v.table.rows[0] && w.table.rows[1].operationId == b
    ensures Releases.KeyOf(w.table.rows[1]) == Releases.Key(t, image, chartVersion, Digest(values))
    ensures var g := v.agents[v.targets[t].agent]; var h := w.agents[v.targets[t].agent];
      && 0 in h.executing && h.executing[0] == g.executing[0] && h.connection == g.connection
      && 1 in h.executing && h.executing[1].request.jobId == b && h.executing[1].connection == h.connection
  {
    var second := Releases.DispatchOf(v.targets[t], image, values, b, 0);
    assert Releases.LastSucceeded(v.table.rows[..0], t) == 0;
    assert !Releases.Live(v.table.rows[0]);
    NewReleaseStarts(v, t, image, chartVersion, values, b);
    var w1 := NewRelease(v, t, image, chartVersion, values, b);
    var x := v.targets[t].agent;
    var disk := AgentLaunchesWithRoom(w1, x, second, 0);
    w := WithAgent(w1, x, Agent.Launched(w1.agents[x], second, disk));
  }
}
