/** A run of the whole protocol in which one operation is started twice: its row's thread lost contact, 256
    later operations push its entry out of the agent's ledger, and the retry dispatches it again. */
module Eviction {
  import opened Wire
  import opened ReleaseValues
  import opened Protocol
  import opened Runs
  import Executor
  import Ledger
  import Agent
  import Releases

  /** Every release operation can be started twice by its agent, whatever its first execution did: once its
      entry is evicted, the retry of its row is the same operation and a new job for the agent. */
  lemma EvictedOperationStartsTwice(w0: World, t: nat, image: string, chartVersion: string, values: Values, a: JobId,
                                    e: Executor.Environment)
    returns (w: World, i: nat, j: nat)
    requires Init(w0) && t in w0.targets && Releases.Acceptable(image, values) && SafeJobId(a) && Executor.Monotone(e)
    ensures Reachable(w) && t in w.targets && w.targets[t].agent in w.agents
    ensures |w.table.rows| == 1 && w.table.rows[0].operationId == a
    ensures var log := w.agents[w.targets[t].agent].log;
      i < j < |log| && log[i] == Agent.Started(a) && log[j] == Agent.Started(a)
  {
    var first := FirstOperation(w0, t, image, chartVersion, values, a, e);
    var full := FillUp(first, t, a, Ledger.MAX_JOBS - 1, e);
    var gone := Evict(full, t, a);
    w, i, j := StartedAgain(gone, t, image, chartVersion, values, a);
  }

  /** An ID that no operation gets. */
  const UNUSED := JobId("")

  /** IDs that differ from each other and from `a`. */
  function Filler(a: JobId, k: nat): JobId
    requires k < Ledger.MAX_JOBS
  {
    JobId((if |a.text| == 2 then "x" else "") + [Letter(k / 16), Letter(k % 16)])
  }

  function Letter(n: nat): char
    requires n < 16
  {
    ('a' as int + n) as char
  }

  lemma FillersDiffer(a: JobId, j: nat, k: nat)
    requires j < Ledger.MAX_JOBS && k < Ledger.MAX_JOBS
    ensures SafeJobId(Filler(a, j)) && Filler(a, j) != a
    ensures j != k ==> Filler(a, j) != Filler(a, k)
  {
    var s, t := Filler(a, j).text, Filler(a, k).text;
    assert s[|s| - 1] == Letter(j % 16) && s[|s| - 2] == Letter(j / 16);
    assert t[|t| - 1] == Letter(k % 16) && t[|t| - 2] == Letter(k / 16);
  }

  /** A resting agent takes a dispatched request it does not know, runs it to its end, and rests again. */
  lemma AgentCompletes(w: World, x: nat, r: Request, now: int, e: Executor.Environment) returns (g: Agent.State)
    requires Reachable(w) && x in w.agents && Dispatch(x, r) in w.dispatched && SafeJobId(r.jobId)
    requires Agent.Resting(w.agents[x]) && r.jobId !in w.agents[x].disk && |w.agents[x].disk| < Ledger.MAX_JOBS
    requires Executor.Monotone(e)
    ensures Reachable(WithAgent(w, x, g)) && Agent.Resting(g)
    ensures g.disk == w.agents[x].disk[
                        r.jobId := Ledger.Done(Sha256(r.content), Executor.ReportedRun(r.content, e), now)]
    ensures w.agents[x].log <= g.log && Agent.Started(r.jobId) in g.log
  {
    var a := w.agents[x];
    var disk := AgentLaunchesWithRoom(w, x, r, now);
    Ledger.AdmittedAlone(a.disk, r.jobId, Sha256(r.content), now);
    g := AgentEnds(w, x, r, disk, now, e);
    assert g.disk == a.disk[r.jobId := g.disk[r.jobId]];
  }

  lemma AgentEnds(w: World, x: nat, r: Request, disk: Ledger.Jobs, now: int, e: Executor.Environment)
    returns (g: Agent.State)
    requires x in w.agents && Reachable(WithAgent(w, x, Agent.Launched(w.agents[x], r, disk)))
    requires Agent.Resting(w.agents[x]) && Executor.Monotone(e)
    requires |disk| <= Ledger.MAX_JOBS && r.jobId in disk && Ledger.Unresolved(disk) <= {r.jobId}
    ensures Reachable(WithAgent(w, x, g)) && Agent.Resting(g)
    ensures g.disk == disk[r.jobId := Ledger.Done(Sha256(r.content), Executor.ReportedRun(r.content, e), now)]
    ensures w.agents[x].log <= g.log && Agent.Started(r.jobId) in g.log
  {
    var a := w.agents[x];
    var running := Agent.Launched(a, r, disk);
    var finished;
    finished, g := Agent.LaunchedEnds(a, r, disk, now, e);
    AgentMovesOn(w, x, running, Agent.Finish(a.starts, e, now, Ledger.Healthy), finished);
    AgentMovesOn(w, x, finished, Agent.Depart(a.starts), g);
    assert running.log[|a.log| + 2] == Agent.Started(r.jobId);
    assert g.log[|a.log| + 2] == Agent.Started(r.jobId);
  }

  /** The row of operation `a`, whose thread could not get a result. */
  function FailedRow(t: nat, image: string, chartVersion: string, values: Values, a: JobId): Releases.Row {
    Releases.Created(t, Releases.Start(image, chartVersion, values, Releases.Create(0)), a).(
      status := Releases.Ended(Failed), code := AgentUnavailable)
  }

  /** The agent of target `t` has finished operation `a` first and `k` other operations since. */
  predicate Filled(w: World, t: nat, a: JobId, k: nat)
    requires k < Ledger.MAX_JOBS
  {
    && t in w.targets && w.targets[t].agent in w.agents
    && var g := w.agents[w.targets[t].agent];
    && Agent.Resting(g) && |g.disk| == k + 1 && Agent.Started(a) in g.log
    && a in g.disk && (forall id :: id in g.disk && id != a ==> g.disk[a].updatedAt < g.disk[id].updatedAt)
    && (forall j :: k <= j < Ledger.MAX_JOBS ==> Filler(a, j) !in g.disk && Filler(a, j) !in w.identities)
    && UNUSED !in w.identities
  }

  lemma LosesContact(w: World, thread: Thread) returns (v: World)
    requires Reachable(w) && thread in w.threads && thread.pk == 0
    requires |w.table.rows| == 1 && w.table.rows[0].status.Active?
    ensures Reachable(v) && v.targets == w.targets && v.agents == w.agents && v.identities == w.identities
    ensures v.table.locks == w.table.locks
    ensures v.table.rows == [w.table.rows[0].(status := Releases.Ended(Failed), code := AgentUnavailable)]
  {
    v := AfterReturn(w, thread, Releases.WriteUnavailable(0));
    StepReachable(w, Unreachable(thread), v);
  }

  /** Operation `a` is created, executed and recorded, while the thread that waits for it loses contact. */
  lemma FirstOperation(w0: World, t: nat, image: string, chartVersion: string, values: Values, a: JobId,
                       e: Executor.Environment)
    returns (w: World)
    requires Init(w0) && t in w0.targets && Releases.Acceptable(image, values) && SafeJobId(a) && Executor.Monotone(e)
    ensures Reachable(w) && Filled(w, t, a, 0) && w.targets == w0.targets
    ensures w.table == Releases.Table([FailedRow(t, image, chartVersion, values, a)], map[])
  {
    InitReachable(w0);
    NewReleaseStarts(w0, t, image, chartVersion, values, a);
    var w1 := NewRelease(w0, t, image, chartVersion, values, a);
    var x := w0.targets[t].agent;
    var r := Releases.DispatchOf(w0.targets[t], image, values, a, 0);
    var g := AgentCompletes(w1, x, r, 0, e);
    w := LosesContact(WithAgent(w1, x, g), Thread(0, r));
    forall j | 0 <= j < Ledger.MAX_JOBS ensures Filler(a, j) !in g.disk && Filler(a, j) !in w.identities {
      FillersDiffer(a, j, j);
    }
  }

  /** A validation of the target is requested. */
  lemma ValidationIssued(w: World, t: nat, id: JobId) returns (v: World)
    requires Reachable(w) && t in w.targets && id !in w.identities && SafeJobId(id)
    ensures Reachable(v) && v == Issue(w, t, ValidationOf(w.targets[t], id))
  {
    v := Issue(w, t, ValidationOf(w.targets[t], id));
    StepReachable(w, Validate(t, id), v);
  }

  lemma FillOne(w: World, t: nat, a: JobId, k: nat, e: Executor.Environment) returns (v: World)
    requires Reachable(w) && k + 1 < Ledger.MAX_JOBS && Filled(w, t, a, k) && Executor.Monotone(e)
    ensures Reachable(v) && Filled(v, t, a, k + 1) && v.targets == w.targets && v.table == w.table
  {
    FillersDiffer(a, k, k);
    var id := Filler(a, k);
    var x := w.targets[t].agent;
    var before := w.agents[x];
    var r := ValidationOf(w.targets[t], id);
    var u := ValidationIssued(w, t, id);
    var now := before.disk[a].updatedAt + 1;
    var g := AgentCompletes(u, x, r, now, e);
    v := WithAgent(u, x, g);
    assert g.disk.Keys == before.disk.Keys + {id};
    assert |g.disk| == |g.disk.Keys|;
    forall j | k + 1 <= j < Ledger.MAX_JOBS ensures Filler(a, j) !in g.disk && Filler(a, j) !in v.identities {
      FillersDiffer(a, j, k);
    }
  }

  lemma {:induction false} FillUp(w: World, t: nat, a: JobId, k: nat, e: Executor.Environment) returns (v: World)
    requires Reachable(w) && k < Ledger.MAX_JOBS && Filled(w, t, a, 0) && Executor.Monotone(e)
    ensures Reachable(v) && Filled(v, t, a, k) && v.targets == w.targets && v.table == w.table
  {
    if k == 0 {
      v := w;
    } else {
      v := FillUp(w, t, a, k - 1, e);
      v := FillOne(v, t, a, k - 1, e);
    }
  }

  /** One operation more, and the ledger no longer knows operation `a`. */
  lemma Evict(w: World, t: nat, a: JobId) returns (v: World)
    requires Reachable(w) && Filled(w, t, a, Ledger.MAX_JOBS - 1)
    ensures Reachable(v) && v.targets == w.targets && v.table == w.table && w.targets[t].agent in v.agents
    ensures UNUSED !in v.identities
    ensures var g := v.agents[w.targets[t].agent];
      && g.loop.Idle? && Agent.Admissible(g, a) == SafeJobId(a) && Agent.Started(a) in g.log
      && a !in g.disk && |Ledger.Unresolved(g.disk)| < Ledger.MAX_JOBS
  {
    FillersDiffer(a, Ledger.MAX_JOBS - 1, 0);
    var id := Filler(a, Ledger.MAX_JOBS - 1);
    var x := w.targets[t].agent;
    var g := w.agents[x];
    var r := ValidationOf(w.targets[t], id);
    var u := ValidationIssued(w, t, id);
    var disk := AgentLaunches(u, x, r, 0);
    v := WithAgent(u, x, Agent.Launched(g, r, disk));
    Ledger.OldestIsEvicted(g.disk, a, id, Sha256(r.content), 0, disk, Ledger.Admitted);
    Ledger.SubsetSize(Ledger.Unresolved(disk), {id});
  }

  /** The world after the retry of the one row `a` reopened it and dispatched its operation again. */
  lemma Reopens(w: World, t: nat, image: string, chartVersion: string, values: Values, a: JobId) returns (v: World)
    requires Reachable(w) && t in w.targets && Releases.Acceptable(image, values) && UNUSED !in w.identities
    requires w.table == Releases.Table([FailedRow(t, image, chartVersion, values, a)], map[])
    ensures Reachable(v) && v.targets == w.targets && v.agents == w.agents
    ensures Dispatch(w.targets[t].agent, Releases.DispatchOf(w.targets[t], image, values, a, 0)) in v.dispatched
    ensures |v.table.rows| == 1 && v.table.rows[0].operationId == a && v.table.rows[0].status.Active?
  {
    var look := Releases.Lookup(t, image, chartVersion, values);
    var locked := w.(table := Releases.Apply(w.table, look));
    StepReachable(w, TableStep(look), locked);
    var row := FailedRow(t, image, chartVersion, values, a);
    assert locked.table.locks[t].decision == Releases.Reopen(0, row);
    v := AfterCommit(locked, t, UNUSED);
    StepReachable(locked, TableStep(Releases.Commit(t, UNUSED)), v);
  }

  lemma StartedAgain(w: World, t: nat, image: string, chartVersion: string, values: Values, a: JobId)
    returns (v: World, i: nat, j: nat)
    requires Reachable(w) && t in w.targets && w.targets[t].agent in w.agents && UNUSED !in w.identities
    requires Releases.Acceptable(image, values) && SafeJobId(a)
    requires w.table == Releases.Table([FailedRow(t, image, chartVersion, values, a)], map[])
    requires var g := w.agents[w.targets[t].agent];
      && g.loop.Idle? && Agent.Admissible(g, a) && Agent.Started(a) in g.log
      && a !in g.disk && |Ledger.Unresolved(g.disk)| < Ledger.MAX_JOBS
    ensures Reachable(v) && v.targets == w.targets && w.targets[t].agent in v.agents
    ensures |v.table.rows| == 1 && v.table.rows[0].operationId == a
    ensures var log := v.agents[w.targets[t].agent].log;
      i < j < |log| && log[i] == Agent.Started(a) && log[j] == Agent.Started(a)
  {
    var x := w.targets[t].agent;
    var g := w.agents[x];
    var r := Releases.DispatchOf(w.targets[t], image, values, a, 0);
    var u := Reopens(w, t, image, chartVersion, values, a);
    var disk := AgentLaunches(u, x, r, 0);
    v := WithAgent(u, x, Agent.Launched(g, r, disk));
    var k :| 0 <= k < |g.log| && g.log[k] == Agent.Started(a);
    i, j := k, |g.log| + 2;
  }
}
