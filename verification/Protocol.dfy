/** The whole release protocol: the control plane's rows and waiting threads, the requests on their way,
    and one agent with its ledger per agent ID. Requests and replies may be delayed, lost, or delivered
    again to a later thread of the same operation; agents crash and reconnect at any time. */
module Protocol {
  import opened Wire
  import opened ReleaseValues
  import Executor
  import Ledger
  import Agent
  import Releases

  const VALIDATION_IMAGE :=
    "validation.invalid/app@sha256:0000000000000000000000000000000000000000000000000000000000000000"

  /** The agent and the content that an operation ID was first issued for. */
  datatype Identity = Identity(agent: nat, content: Content)

  /** A control-plane thread inside the backend's start call. */
  datatype Thread = Thread(pk: nat, request: Request)

  datatype Dispatch = Dispatch(agent: nat, request: Request)

  /** `dispatched` are the requests sent, oldest first; any of them may arrive at any time, and again.
      `identities` is a history: it records every operation ID at the moment it is issued. */
  datatype World = World(
    targets: map<nat, Releases.Target>,
    table: Releases.Table,
    threads: set<Thread>,
    dispatched: seq<Dispatch>,
    agents: map<nat, Agent.State>,
    identities: map<JobId, Identity>)

  datatype Step =
    | TableStep(op: Releases.Op)
    | Validate(target: nat, id: JobId)
    | AgentStep(agent: nat, step: Agent.Step)
    | Answer(thread: Thread, result: JobResult)
    | Unreachable(thread: Thread)
    | Abandon(thread: Thread)

  ghost predicate Init(w: World) {
    && w.table == Releases.EMPTY && w.threads == {} && w.dispatched == [] && w.identities == map[]
    && (forall x :: x in w.agents ==> w.agents[x] == Agent.INITIAL)
    && (forall t :: t in w.targets ==> w.targets[t].agent in w.agents)
  }

  // ---------------------------------------------------------------------------------------------
  // Steps
  // ---------------------------------------------------------------------------------------------

  function ValidationOf(t: Releases.Target, id: JobId): Request {
    Request(id, Content(t.namespace, t.releaseName, Releases.CHART_PATH, VALIDATION_IMAGE,
                        Canonical(Values(Absent, NoObservability, "{}")), t.credentialRef,
                        Releases.TIMEOUT, Releases.TIMEOUT, BlockAfterMigration, ValidateOnly, 0))
  }

  function Issue(w: World, t: nat, r: Request): World
    requires t in w.targets
  {
    var agent := w.targets[t].agent;
    w.(dispatched := w.dispatched + [Dispatch(agent, r)],
       identities := if r.jobId in w.identities then w.identities
                     else w.identities[r.jobId := Identity(agent, r.content)])
  }

  /** A start commits: it either joins a running release, or dispatches its reopened or new row. */
  function AfterCommit(w: World, target: nat, newId: JobId): World
    requires Releases.CanApply(w.table, Releases.Commit(target, newId)) && target in w.targets
  {
    var s := w.table.locks[target];
    var table := Releases.Apply(w.table, Releases.Commit(target, newId));
    if s.decision.Join? then w.(table := table)
    else
      var pk := if s.decision.Reopen? then s.decision.pk else |w.table.rows|;
      var row := table.rows[pk];
      var r := Releases.DispatchOf(w.targets[target], s.image, s.values, row.operationId, row.previousRevision);
      Issue(w.(table := table, threads := w.threads + {Thread(pk, r)}), target, r)
  }

  function AfterReturn(w: World, thread: Thread, op: Releases.Op): World
    requires Releases.CanApply(w.table, op)
  {
    w.(table := Releases.Apply(w.table, op), threads := w.threads - {thread})
  }

  /** A terminal result the thread may get: something the agent sent for this operation, or one of the
      gateway's own failure frames. */
  predicate Available(w: World, thread: Thread, result: JobResult) {
    || result in {Failure(AgentDisconnected), Failure(StreamOrder)}
    || exists x :: x in w.agents && Dispatch(x, thread.request) in w.dispatched
                   && Agent.Sent(thread.request.jobId, result) in w.agents[x].sent
  }

  ghost predicate Next(v: World, step: Step, w: World) {
    match step
    case TableStep(op) =>
      && Releases.CanApply(v.table, op)
      && (match op
          case Lookup(target, _, _, _) => target in v.targets && w == v.(table := Releases.Apply(v.table, op))
          case Commit(target, newId) =>
            target in v.targets && newId !in v.identities && w == AfterCommit(v, target, newId)
          case WriteCancel(_, _) => w == v.(table := Releases.Apply(v.table, op))
          case _ => false)
    case Validate(target, id) =>
      && target in v.targets && id !in v.identities && SafeJobId(id)
      && w == Issue(v, target, ValidationOf(v.targets[target], id))
    case AgentStep(x, s) =>
      && x in v.agents && x in w.agents
      && (s.Receive? ==> Dispatch(x, s.request) in v.dispatched)
      && Agent.Next(v.agents[x], s, w.agents[x])
      && w == v.(agents := v.agents[x := w.agents[x]])
    case Answer(thread, result) =>
      var op := Releases.WriteResult(thread.pk, result, thread.request.content.previousRevision);
      && thread in v.threads && Available(v, thread, result) && Releases.CanApply(v.table, op)
      && w == AfterReturn(v, thread, op)
    case Unreachable(thread) =>
      var op := Releases.WriteUnavailable(thread.pk);
      thread in v.threads && Releases.CanApply(v.table, op) && w == AfterReturn(v, thread, op)
    case Abandon(thread) => thread in v.threads && w == v.(threads := v.threads - {thread})
  }

  ghost predicate IsRun(worlds: seq<World>, steps: seq<Step>) {
    && |worlds| == |steps| + 1
    && Init(worlds[0])
    && forall i {:trigger steps[i]} :: 0 <= i < |steps| ==> Next(worlds[i], steps[i], worlds[i + 1])
  }

  // ---------------------------------------------------------------------------------------------
  // What each agent knows agrees with what was issued
  // ---------------------------------------------------------------------------------------------

  /** The request is the one its ID was issued for, and this is the agent it was issued to. */
  predicate Known(ids: map<JobId, Identity>, x: nat, r: Request) {
    SafeJobId(r.jobId) && r.jobId in ids && ids[r.jobId] == Identity(x, r.content)
  }

  /** The result is that of a finished execution of exactly this request. */
  predicate Backed(finished: seq<Agent.Finished>, r: Request, result: JobResult) {
    exists k :: 0 <= k < |finished| && finished[k].request == r
                && result == Executor.ReportedRun(r.content, finished[k].environment)
  }

  predicate ReplySound(finished: seq<Agent.Finished>, r: Request, result: JobResult) {
    result in {Failure(DurableStateUnavailable), Failure(RecoveryRequired)} || Backed(finished, r, result)
  }

  predicate EntrySound(ids: map<JobId, Identity>, x: nat, finished: seq<Agent.Finished>, id: JobId, e: Ledger.Entry) {
    && id in ids && ids[id].agent == x
    && e.fingerprint == Sha256(ids[id].content)
    && (e.completed ==> e.result.Some? && Backed(finished, Request(id, ids[id].content), e.result.value))
  }

  predicate SentSound(ids: map<JobId, Identity>, x: nat, finished: seq<Agent.Finished>, s: Agent.Sent) {
    s.id in ids && ids[s.id].agent == x && ReplySound(finished, Request(s.id, ids[s.id].content), s.result)
  }

  predicate StartSound(ids: map<JobId, Identity>, x: nat, e: Agent.Event) {
    e.Started? ==> e.id in ids && ids[e.id].agent == x
  }

  predicate Informed(ids: map<JobId, Identity>, x: nat, a: Agent.State) {
    && (forall id :: id in a.disk ==> EntrySound(ids, x, a.finished, id, a.disk[id]))
    && (!a.loop.Idle? ==> Known(ids, x, a.loop.request))
    && (forall n :: n in a.executing ==> Known(ids, x, a.executing[n].request))
    && (forall k :: 0 <= k < |a.sent| ==> SentSound(ids, x, a.finished, a.sent[k]))
    && (forall k :: 0 <= k < |a.log| ==> StartSound(ids, x, a.log[k]))
  }

  // ---------------------------------------------------------------------------------------------
  // The invariant of the whole protocol
  // ---------------------------------------------------------------------------------------------

  /** The request that this row's operation always carries. */
  function RowRequest(targets: map<nat, Releases.Target>, row: Releases.Row): Request
    requires row.target in targets
  {
    Releases.DispatchOf(targets[row.target], row.image, row.values, row.operationId, row.previousRevision)
  }

  predicate RowKnown(targets: map<nat, Releases.Target>, ids: map<JobId, Identity>, row: Releases.Row) {
    row.target in targets && Known(ids, targets[row.target].agent, RowRequest(targets, row))
  }

  /** An execution of this request finished with this verdict and this revision. */
  ghost predicate Evidence(finished: seq<Agent.Finished>, r: Request, verdict: ResultStatus, revision: nat) {
    exists k :: 0 <= k < |finished| && finished[k].request == r
                && Executor.ReportedRun(r.content, finished[k].environment).status == verdict
                && Executor.ReportedRun(r.content, finished[k].environment).helmRevision == revision
  }

  predicate NeedsEvidence(status: Releases.Status) {
    status.Ended? && status.verdict in {Succeeded, RolledBack, RollbackBlocked}
  }

  /** A verdict that only an execution can give was given by an execution of this row's request. */
  ghost predicate RowBacked(targets: map<nat, Releases.Target>, agents: map<nat, Agent.State>, row: Releases.Row)
    requires row.target in targets
  {
    && targets[row.target].agent in agents
    && (NeedsEvidence(row.status) ==>
          Evidence(agents[targets[row.target].agent].finished, RowRequest(targets, row),
                   row.status.verdict, row.helmRevision))
  }

  predicate ThreadSound(targets: map<nat, Releases.Target>, rows: seq<Releases.Row>, t: Thread) {
    && t.pk < |rows| && rows[t.pk].target in targets
    && t.request == RowRequest(targets, rows[t.pk])
  }

  predicate DispatchSound(agents: map<nat, Agent.State>, ids: map<JobId, Identity>, d: Dispatch) {
    d.agent in agents && Known(ids, d.agent, d.request)
  }

  ghost predicate AgentsSound(ids: map<JobId, Identity>, agents: map<nat, Agent.State>) {
    forall x {:trigger Informed(ids, x, agents[x])} ::
      x in agents ==> Agent.Inv(agents[x]) && Informed(ids, x, agents[x])
  }

  ghost predicate RowsSound(targets: map<nat, Releases.Target>, agents: map<nat, Agent.State>,
                            ids: map<JobId, Identity>, rows: seq<Releases.Row>) {
    forall pk {:trigger RowKnown(targets, ids, rows[pk])} ::
      0 <= pk < |rows| ==> RowKnown(targets, ids, rows[pk]) && RowBacked(targets, agents, rows[pk])
  }

  predicate DispatchesSound(agents: map<nat, Agent.State>, ids: map<JobId, Identity>, dispatched: seq<Dispatch>) {
    forall d {:trigger DispatchSound(agents, ids, d)} :: d in dispatched ==> DispatchSound(agents, ids, d)
  }

  predicate ThreadsSound(targets: map<nat, Releases.Target>, rows: seq<Releases.Row>, threads: set<Thread>) {
    forall t {:trigger ThreadSound(targets, rows, t)} :: t in threads ==> ThreadSound(targets, rows, t)
  }

  ghost predicate Inv(w: World) {
    && Releases.Inv(w.table)
    && (forall t :: t in w.targets ==> w.targets[t].agent in w.agents)
    && (forall t :: t in w.table.locks ==> t in w.targets)
    && AgentsSound(w.identities, w.agents)
    && RowsSound(w.targets, w.agents, w.identities, w.table.rows)
    && DispatchesSound(w.agents, w.identities, w.dispatched)
    && ThreadsSound(w.targets, w.table.rows, w.threads)
  }

  // ---------------------------------------------------------------------------------------------
  // What agents know stays in agreement
  // ---------------------------------------------------------------------------------------------

  lemma BackedLater(finished: seq<Agent.Finished>, more: seq<Agent.Finished>, r: Request, result: JobResult)
    requires Backed(finished, r, result)
    ensures Backed(finished + more, r, result)
  {
    var k :| 0 <= k < |finished| && finished[k].request == r
             && result == Executor.ReportedRun(r.content, finished[k].environment);
    assert (finished + more)[k] == finished[k];
  }

  /** The histories grow, and nothing that was sound stops being so. */
  lemma SoundLater(ids: map<JobId, Identity>, x: nat, a: Agent.State, more: seq<Agent.Finished>)
    requires Informed(ids, x, a)
    ensures forall id :: id in a.disk ==> EntrySound(ids, x, a.finished + more, id, a.disk[id])
    ensures forall k :: 0 <= k < |a.sent| ==> SentSound(ids, x, a.finished + more, a.sent[k])
  {
    forall id | id in a.disk ensures EntrySound(ids, x, a.finished + more, id, a.disk[id]) {
      if a.disk[id].completed {
        BackedLater(a.finished, more, Request(id, ids[id].content), a.disk[id].result.value);
      }
    }
    forall k | 0 <= k < |a.sent| ensures SentSound(ids, x, a.finished + more, a.sent[k]) {
      var r := Request(a.sent[k].id, ids[a.sent[k].id].content);
      if Backed(a.finished, r, a.sent[k].result) {
        BackedLater(a.finished, more, r, a.sent[k].result);
      }
    }
  }

  lemma ReceiveInformed(ids: map<JobId, Identity>, x: nat, a: Agent.State, r: Request)
    requires Informed(ids, x, a) && Known(ids, x, r) && a.loop.Idle?
    ensures Informed(ids, x, Agent.AfterReceive(a, r))
  {
  }

  lemma BeginInformed(ids: map<JobId, Identity>, x: nat, a: Agent.State, now: int,
                      b: Agent.State, reply: Ledger.BeginReply)
    requires Informed(ids, x, a) && a.loop.Holding? && b == Agent.AfterBegin(a, b.disk, reply)
    requires Ledger.BeginEffect(a.disk, a.loop.request.jobId, Sha256(a.loop.request.content), now, b.disk, reply)
    ensures Informed(ids, x, b)
  {
    var r := a.loop.request;
    if reply.Existing? {
      assert EntrySound(ids, x, a.finished, r.jobId, a.disk[r.jobId]);
    }
    if !reply.Admitted? {
      assert SentSound(ids, x, a.finished, b.sent[|a.sent|]);
    }
  }

  lemma FinishInformed(ids: map<JobId, Identity>, x: nat, a: Agent.State, n: nat, e: Executor.Environment,
                       now: int, b: Agent.State, ok: bool)
    requires Informed(ids, x, a) && n in a.executing && b == Agent.AfterFinish(a, n, e, b.disk, ok)
    requires var r := a.executing[n].request;
      b.disk == if ok then a.disk[r.jobId := Ledger.Done(Sha256(r.content), Executor.ReportedRun(r.content, e), now)]
                else a.disk
    ensures Informed(ids, x, b)
  {
    var r := a.executing[n].request;
    var done := Agent.Finished(r, e, a.executing[n].connection == a.connection);
    SoundLater(ids, x, a, [done]);
    assert b.finished[|a.finished|] == done;
    assert Backed(b.finished, r, Executor.ReportedRun(r.content, e));
    assert Request(r.jobId, ids[r.jobId].content) == r;
    assert SentSound(ids, x, b.finished, b.sent[|a.sent|]);
  }

  lemma QuietInformed(ids: map<JobId, Identity>, x: nat, a: Agent.State, step: Agent.Step, b: Agent.State)
    requires Informed(ids, x, a) && Agent.Next(a, step, b)
    requires step.Launch? || step.Depart? || step.Reconnect? || step.Crash?
    ensures Informed(ids, x, b)
  {
  }

  lemma AgentStepInformed(ids: map<JobId, Identity>, x: nat, a: Agent.State, step: Agent.Step, b: Agent.State)
    requires Agent.Inv(a) && Informed(ids, x, a) && Agent.Next(a, step, b)
    requires step.Receive? ==> Known(ids, x, step.request)
    ensures Informed(ids, x, b)
  {
    match step
    case Receive(r) => ReceiveInformed(ids, x, a, r);
    case Begin(now, fault) =>
      var reply := Agent.BeginReplyOf(a, now, fault, b);
      BeginInformed(ids, x, a, now, b, reply);
    case Finish(n, e, now, fault) =>
      var ok := Agent.FinishedDisk(a, n, e, now, fault, b);
      FinishInformed(ids, x, a, n, e, now, b, ok);
    case _ => QuietInformed(ids, x, a, step, b);
  }

  // ---------------------------------------------------------------------------------------------
  // More issued identities and longer histories do no harm
  // ---------------------------------------------------------------------------------------------

  predicate Extends(ids: map<JobId, Identity>, more: map<JobId, Identity>) {
    forall id :: id in ids ==> id in more && more[id] == ids[id]
  }

  lemma InformedLater(ids: map<JobId, Identity>, more: map<JobId, Identity>, x: nat, a: Agent.State)
    requires Informed(ids, x, a) && Extends(ids, more)
    ensures Informed(more, x, a)
  {
    forall id | id in a.disk ensures EntrySound(more, x, a.finished, id, a.disk[id]) {
      assert EntrySound(ids, x, a.finished, id, a.disk[id]);
    }
    forall k | 0 <= k < |a.sent| ensures SentSound(more, x, a.finished, a.sent[k]) {
      assert SentSound(ids, x, a.finished, a.sent[k]);
    }
  }

  lemma AgentsSoundLater(ids: map<JobId, Identity>, more: map<JobId, Identity>, agents: map<nat, Agent.State>)
    requires AgentsSound(ids, agents) && Extends(ids, more)
    ensures AgentsSound(more, agents)
  {
    forall x | x in agents ensures Agent.Inv(agents[x]) && Informed(more, x, agents[x]) {
      InformedLater(ids, more, x, agents[x]);
    }
  }

  lemma RowsSoundLater(targets: map<nat, Releases.Target>, agents: map<nat, Agent.State>,
                       ids: map<JobId, Identity>, more: map<JobId, Identity>, rows: seq<Releases.Row>)
    requires RowsSound(targets, agents, ids, rows) && Extends(ids, more)
    ensures RowsSound(targets, agents, more, rows)
  {
    forall pk | 0 <= pk < |rows| ensures RowKnown(targets, more, rows[pk]) && RowBacked(targets, agents, rows[pk]) {
      assert RowKnown(targets, ids, rows[pk]);
    }
  }

  lemma DispatchesSoundLater(agents: map<nat, Agent.State>, ids: map<JobId, Identity>, more: map<JobId, Identity>,
                             dispatched: seq<Dispatch>, d: Dispatch)
    requires DispatchesSound(agents, ids, dispatched) && Extends(ids, more)
    requires DispatchSound(agents, more, d)
    ensures DispatchesSound(agents, more, dispatched + [d])
  {
    forall e | e in dispatched ensures DispatchSound(agents, more, e) {
      assert DispatchSound(agents, ids, e);
    }
  }

  /** Issuing a request keeps the invariant, if the ID is new or was issued for this very request. */
  lemma IssueKeeps(v: World, t: nat, r: Request)
    requires Inv(v) && t in v.targets && SafeJobId(r.jobId)
    requires r.jobId in v.identities ==> v.identities[r.jobId] == Identity(v.targets[t].agent, r.content)
    ensures Inv(Issue(v, t, r))
  {
    var ids := Issue(v, t, r).identities;
    AgentsSoundLater(v.identities, ids, v.agents);
    RowsSoundLater(v.targets, v.agents, v.identities, ids, v.table.rows);
    DispatchesSoundLater(v.agents, v.identities, ids, v.dispatched, Dispatch(v.targets[t].agent, r));
  }

  /** A row of the new table carries the same request as before, and its evidence. */
  ghost predicate RowCarried(v: World, old_: Releases.Row, row: Releases.Row)
    requires old_.target in v.targets
  {
    && row.target == old_.target
    && RowRequest(v.targets, row) == RowRequest(v.targets, old_)
    && RowBacked(v.targets, v.agents, row)
  }

  /** A change of the table that carries every row keeps the invariant. */
  lemma TableKeeps(v: World, table: Releases.Table)
    requires Inv(v) && Releases.Inv(table) && |v.table.rows| == |table.rows|
    requires forall t :: t in table.locks ==> t in v.targets
    requires forall pk :: 0 <= pk < |table.rows| ==>
               RowKnown(v.targets, v.identities, v.table.rows[pk]) && RowCarried(v, v.table.rows[pk], table.rows[pk])
    ensures Inv(v.(table := table))
  {
    forall th | th in v.threads ensures ThreadSound(v.targets, table.rows, th) {
      assert ThreadSound(v.targets, v.table.rows, th);
      assert RowCarried(v, v.table.rows[th.pk], table.rows[th.pk]);
    }
  }

  /** A guarded write of one row, which carries that row, keeps the invariant. */
  lemma WriteKeeps(v: World, op: Releases.Op, pk: nat, row: Releases.Row)
    requires Inv(v) && Releases.CanApply(v.table, op) && pk < |v.table.rows|
    requires Releases.Apply(v.table, op) == v.table.(rows := Releases.Guarded(v.table.rows, pk, row))
    requires RowKnown(v.targets, v.identities, v.table.rows[pk]) && RowCarried(v, v.table.rows[pk], row)
    ensures Inv(v.(table := Releases.Apply(v.table, op)))
  {
    Releases.ApplyKeepsInv(v.table, op);
    var rows := Releases.Guarded(v.table.rows, pk, row);
    forall i | 0 <= i < |rows|
      ensures RowKnown(v.targets, v.identities, v.table.rows[i]) && RowCarried(v, v.table.rows[i], rows[i])
    {
      assert RowKnown(v.targets, v.identities, v.table.rows[i]) && RowBacked(v.targets, v.agents, v.table.rows[i]);
    }
    TableKeeps(v, Releases.Apply(v.table, op));
  }

  // ---------------------------------------------------------------------------------------------
  // Every step keeps the invariant
  // ---------------------------------------------------------------------------------------------

  /** Locking and unlocking leaves every row alone. */
  lemma LocksKeep(v: World, table: Releases.Table)
    requires Inv(v) && Releases.Inv(table) && table.rows == v.table.rows
    requires forall t :: t in table.locks ==> t in v.targets
    ensures Inv(v.(table := table))
  {
    forall pk | 0 <= pk < |table.rows|
      ensures RowKnown(v.targets, v.identities, v.table.rows[pk]) && RowCarried(v, v.table.rows[pk], table.rows[pk])
    {
      assert RowKnown(v.targets, v.identities, v.table.rows[pk]) && RowBacked(v.targets, v.agents, v.table.rows[pk]);
    }
    TableKeeps(v, table);
  }

  lemma ReopenKeeps(v: World, target: nat, newId: JobId)
    requires Inv(v) && target in v.targets && target in v.table.locks && v.table.locks[target].decision.Reopen?
    requires Releases.CanApply(v.table, Releases.Commit(target, newId))
    ensures Inv(AfterCommit(v, target, newId))
  {
    var op := Releases.Commit(target, newId);
    var s := v.table.locks[target];
    var pk := s.decision.pk;
    assert Releases.LockHolds(v.table, target);
    Releases.ApplyKeepsInv(v.table, op);
    var table := Releases.Apply(v.table, op);
    forall i | 0 <= i < |table.rows|
      ensures RowKnown(v.targets, v.identities, v.table.rows[i]) && RowCarried(v, v.table.rows[i], table.rows[i])
    {
      assert RowKnown(v.targets, v.identities, v.table.rows[i]) && RowBacked(v.targets, v.agents, v.table.rows[i]);
    }
    TableKeeps(v, table);
    var u := v.(table := table);
    var r := RowRequest(v.targets, table.rows[pk]);
    assert r == Releases.DispatchOf(v.targets[target], s.image, s.values,
                                    table.rows[pk].operationId, table.rows[pk].previousRevision);
    assert RowKnown(v.targets, v.identities, v.table.rows[pk]);
    IssueKeeps(u.(threads := u.threads + {Thread(pk, r)}), target, r);
  }

  /** A new row joins the table after its request was issued. */
  lemma AppendKeeps(v: World, table: Releases.Table, row: Releases.Row)
    requires Inv(v) && Releases.Inv(table) && table.rows == v.table.rows + [row]
    requires forall t :: t in table.locks ==> t in v.targets
    requires RowKnown(v.targets, v.identities, row) && RowBacked(v.targets, v.agents, row)
    ensures Inv(v.(table := table))
  {
    forall pk | 0 <= pk < |table.rows|
      ensures RowKnown(v.targets, v.identities, table.rows[pk]) && RowBacked(v.targets, v.agents, table.rows[pk])
    {
      if pk < |v.table.rows| {
        assert RowKnown(v.targets, v.identities, v.table.rows[pk]) && RowBacked(v.targets, v.agents, v.table.rows[pk]);
      }
    }
    forall th | th in v.threads ensures ThreadSound(v.targets, table.rows, th) {
      assert ThreadSound(v.targets, v.table.rows, th);
    }
  }

  lemma CreateKeeps(v: World, target: nat, newId: JobId)
    requires Inv(v) && target in v.targets && target in v.table.locks && v.table.locks[target].decision.Create?
    requires Releases.CanApply(v.table, Releases.Commit(target, newId)) && newId !in v.identities
    ensures Inv(AfterCommit(v, target, newId))
  {
    var op := Releases.Commit(target, newId);
    var s := v.table.locks[target];
    var table := Releases.Apply(v.table, op);
    var row := Releases.Created(target, s, newId);
    var r := RowRequest(v.targets, row);
    Releases.ApplyKeepsInv(v.table, op);
    IssueKeeps(v, target, r);
    var u := Issue(v, target, r);
    assert table.rows == v.table.rows + [row];
    AppendKeeps(u, table, row);
  }

  lemma CommitKeeps(v: World, target: nat, newId: JobId)
    requires Inv(v) && target in v.targets && newId !in v.identities
    requires Releases.CanApply(v.table, Releases.Commit(target, newId))
    ensures Inv(AfterCommit(v, target, newId))
  {
    match v.table.locks[target].decision
    case Join(_) =>
      Releases.ApplyKeepsInv(v.table, Releases.Commit(target, newId));
      LocksKeep(v, Releases.Apply(v.table, Releases.Commit(target, newId)));
    case Reopen(_, _) => ReopenKeeps(v, target, newId);
    case Create(_) => CreateKeeps(v, target, newId);
  }

  lemma CancelKeeps(v: World, pk: nat, accepted: bool)
    requires Inv(v) && pk < |v.table.rows|
    ensures Inv(v.(table := Releases.Apply(v.table, Releases.WriteCancel(pk, accepted))))
  {
    var row := v.table.rows[pk];
    assert RowKnown(v.targets, v.identities, row) && RowBacked(v.targets, v.agents, row);
    WriteKeeps(v, Releases.WriteCancel(pk, accepted), pk, Releases.WithCancel(row, accepted));
  }

  lemma UnavailableKeeps(v: World, pk: nat)
    requires Inv(v) && pk < |v.table.rows|
    ensures Inv(v.(table := Releases.Apply(v.table, Releases.WriteUnavailable(pk))))
  {
    var row := v.table.rows[pk];
    assert RowKnown(v.targets, v.identities, row) && RowBacked(v.targets, v.agents, row);
    WriteKeeps(v, Releases.WriteUnavailable(pk), pk, row.(status := Releases.Ended(Failed), code := AgentUnavailable));
  }

  lemma BackedResult(finished: seq<Agent.Finished>, r: Request, result: JobResult)
    requires Backed(finished, r, result)
    ensures result.previousRevision == 0 || result.previousRevision == r.content.previousRevision
    ensures Evidence(finished, r, result.status, result.helmRevision)
    ensures result.code != OperationIdConflict && result.code != InvalidOperationId
  {
    var k :| 0 <= k < |finished| && finished[k].request == r
             && result == Executor.ReportedRun(r.content, finished[k].environment);
    Executor.ReportIsOwn(r.content, finished[k].environment);
  }

  /** Whatever terminal result a thread can get names no foreign revision, and if it claims success, a
      rollback or a blocked rollback, an execution of the thread's own request stands behind it. */
  lemma AnswerIsSound(v: World, thread: Thread, result: JobResult)
    requires Inv(v) && Available(v, thread, result) && ThreadSound(v.targets, v.table.rows, thread)
    ensures result.previousRevision == 0 || result.previousRevision == thread.request.content.previousRevision
    ensures NeedsEvidence(Releases.Ended(result.status)) ==>
              var x := v.targets[v.table.rows[thread.pk].target].agent;
              x in v.agents && Evidence(v.agents[x].finished, thread.request, result.status, result.helmRevision)
  {
    var row := v.table.rows[thread.pk];
    assert RowKnown(v.targets, v.identities, row) && RowBacked(v.targets, v.agents, row);
    if result !in {Failure(AgentDisconnected), Failure(StreamOrder)} {
      var x :| x in v.agents && Dispatch(x, thread.request) in v.dispatched
               && Agent.Sent(thread.request.jobId, result) in v.agents[x].sent;
      assert DispatchSound(v.agents, v.identities, Dispatch(x, thread.request));
      var k :| 0 <= k < |v.agents[x].sent| && v.agents[x].sent[k] == Agent.Sent(thread.request.jobId, result);
      assert Informed(v.identities, x, v.agents[x]);
      assert SentSound(v.identities, x, v.agents[x].finished, v.agents[x].sent[k]);
      if Backed(v.agents[x].finished, thread.request, result) {
        BackedResult(v.agents[x].finished, thread.request, result);
      }
    }
  }

  /** What no step changes of a row. */
  predicate SameOperation(r: Releases.Row, s: Releases.Row) {
    s.operationId == r.operationId && s.previousRevision == r.previousRevision && Releases.KeyOf(s) == Releases.KeyOf(r)
  }

  /** Rows stay, with their key, operation ID and previous revision, and targets do not change. */
  lemma RowsStay(v: World, step: Step, w: World)
    requires Inv(v) && Next(v, step, w)
    ensures w.targets == v.targets && |v.table.rows| <= |w.table.rows|
    ensures forall pk :: 0 <= pk < |v.table.rows| ==> SameOperation(v.table.rows[pk], w.table.rows[pk])
  {
    match step
    case TableStep(op) => Releases.RowsEvolve(v.table, op);
    case Answer(thread, result) =>
      assert ThreadSound(v.targets, v.table.rows, thread);
      AnswerIsSound(v, thread, result);
    case _ =>
  }

  lemma AnswerKeeps(v: World, thread: Thread, result: JobResult)
    requires Inv(v) && thread in v.threads && Available(v, thread, result)
    requires thread.pk < |v.table.rows|
    ensures Inv(v.(table := Releases.Apply(v.table,
                     Releases.WriteResult(thread.pk, result, thread.request.content.previousRevision))))
  {
    assert ThreadSound(v.targets, v.table.rows, thread);
    AnswerIsSound(v, thread, result);
    var row := v.table.rows[thread.pk];
    assert RowKnown(v.targets, v.identities, row) && RowBacked(v.targets, v.agents, row);
    var written := Releases.WithResult(row, result, thread.request.content.previousRevision);
    assert RowRequest(v.targets, written) == RowRequest(v.targets, row);
    WriteKeeps(v, Releases.WriteResult(thread.pk, result, thread.request.content.previousRevision), thread.pk, written);
  }

  lemma FinishedGrows(a: Agent.State, step: Agent.Step, b: Agent.State)
    requires Agent.Next(a, step, b)
    ensures a.finished <= b.finished
  {
    if step.Finish? {
      Agent.FinishFrame(a, step.n, step.environment, step.now, step.fault, b);
    } else {
      Agent.StepFrame(a, step, b);
    }
  }

  lemma AgentNext(ids: map<JobId, Identity>, x: nat, a: Agent.State, step: Agent.Step, b: Agent.State)
    requires Agent.Inv(a) && Informed(ids, x, a) && Agent.Next(a, step, b)
    requires step.Receive? ==> Known(ids, x, step.request)
    ensures Agent.Inv(b) && Informed(ids, x, b) && a.finished <= b.finished
  {
    Agent.InvNext(a, step, b);
    AgentStepInformed(ids, x, a, step, b);
    FinishedGrows(a, step, b);
  }

  lemma AgentKeeps(v: World, x: nat, step: Agent.Step, b: Agent.State)
    requires Inv(v) && x in v.agents && Agent.Next(v.agents[x], step, b)
    requires step.Receive? ==> Dispatch(x, step.request) in v.dispatched
    ensures Inv(v.(agents := v.agents[x := b]))
  {
    if step.Receive? { assert DispatchSound(v.agents, v.identities, Dispatch(x, step.request)); }
    assert Informed(v.identities, x, v.agents[x]);
    AgentNext(v.identities, x, v.agents[x], step, b);
    AgentsKeep(v.identities, v.agents, x, b);
    AgentKeepsRows(v, x, b);
    AgentKeepsDispatches(v, x, b);
  }

  lemma AgentsKeep(ids: map<JobId, Identity>, agents: map<nat, Agent.State>, x: nat, b: Agent.State)
    requires AgentsSound(ids, agents) && Agent.Inv(b) && Informed(ids, x, b)
    ensures AgentsSound(ids, agents[x := b])
  {
    var after := agents[x := b];
    forall y | y in after ensures Agent.Inv(after[y]) && Informed(ids, y, after[y]) {
      assert y != x ==> Informed(ids, y, agents[y]);
    }
  }

  lemma AgentKeepsDispatches(v: World, x: nat, b: Agent.State)
    requires DispatchesSound(v.agents, v.identities, v.dispatched)
    ensures DispatchesSound(v.agents[x := b], v.identities, v.dispatched)
  {
    forall d | d in v.dispatched ensures DispatchSound(v.agents[x := b], v.identities, d) {
      assert DispatchSound(v.agents, v.identities, d);
    }
  }

  lemma AgentKeepsRows(v: World, x: nat, b: Agent.State)
    requires RowsSound(v.targets, v.agents, v.identities, v.table.rows)
    requires x in v.agents && v.agents[x].finished <= b.finished
    ensures RowsSound(v.targets, v.agents[x := b], v.identities, v.table.rows)
  {
    var agents := v.agents[x := b];
    var rows := v.table.rows;
    forall pk | 0 <= pk < |rows|
      ensures RowKnown(v.targets, v.identities, rows[pk]) && RowBacked(v.targets, agents, rows[pk])
    {
      var row := rows[pk];
      assert RowKnown(v.targets, v.identities, row) && RowBacked(v.targets, v.agents, row);
    }
  }

  lemma TableStepKeeps(v: World, op: Releases.Op, w: World)
    requires Inv(v) && Next(v, TableStep(op), w)
    ensures Inv(w)
  {
    match op
    case Lookup(_, _, _, _) =>
      Releases.ApplyKeepsInv(v.table, op);
      LocksKeep(v, w.table);
    case Commit(target, newId) => CommitKeeps(v, target, newId);
    case WriteCancel(pk, accepted) => CancelKeeps(v, pk, accepted);
    case _ =>
  }

  lemma NextKeeps(v: World, step: Step, w: World)
    requires Inv(v) && Next(v, step, w)
    ensures Inv(w)
  {
    match step
    case TableStep(op) => TableStepKeeps(v, op, w);
    case Validate(t, id) => IssueKeeps(v, t, ValidationOf(v.targets[t], id));
    case AgentStep(x, s) => AgentKeeps(v, x, s, w.agents[x]);
    case Answer(thread, result) =>
      AnswerKeeps(v, thread, result);
    case Unreachable(thread) =>
      UnavailableKeeps(v, thread.pk);
    case Abandon(thread) =>
  }

  lemma InitKeeps(w: World)
    requires Init(w)
    ensures Inv(w)
  {
    forall x | x in w.agents ensures Agent.Inv(w.agents[x]) && Informed(w.identities, x, w.agents[x]) {}
  }

  lemma {:induction false} InvRun(worlds: seq<World>, steps: seq<Step>, i: nat)
    requires IsRun(worlds, steps) && i < |worlds|
    ensures Inv(worlds[i])
  {
    if i == 0 {
      InitKeeps(worlds[0]);
    } else {
      InvRun(worlds, steps, i - 1);
      assert Next(worlds[i - 1], steps[i - 1], worlds[i]);
      NextKeeps(worlds[i - 1], steps[i - 1], worlds[i]);
    }
  }
}
