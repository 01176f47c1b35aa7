/** The agent's handling of Kubernetes release requests: per-connection admission, the durable ledger,
    executions that outlive their connection, and process crashes that keep only the ledger. */
module Agent {
  import opened Wire
  import opened Ledger
  import Executor

  const MAX_ACTIVE: nat := 4

  /** Where the receive loop stands with the request it took last. */
  datatype Loop = Idle | Holding(request: Request) | Written(request: Request)

  /** One execution, and the connection whose active map lists it. */
  datatype Job = Job(request: Request, connection: nat)

  /** What happened to the ledger and to executions, oldest first. */
  datatype Event =
    | Wrote(id: JobId)
    | Started(id: JobId)
    | Recorded(id: JobId)
    | Evicted(ids: set<JobId>)

  datatype Sent = Sent(id: JobId, result: JobResult)

  /** A finished execution; `own` if the connection it was started on was still the present one. */
  datatype Finished = Finished(request: Request, environment: Executor.Environment, own: bool)

  /** `disk` survives a crash. `lostAt` are the executions whose stream was lost, each with the number of
      attempts it had begun by then. `log`, `sent` and `finished` are histories that no step reads. */
  datatype State = State(
    disk: Jobs,
    connection: nat,
    active: set<JobId>,
    loop: Loop,
    executing: map<nat, Job>,
    lostAt: map<nat, nat>,
    finishing: map<nat, Job>,
    starts: nat,
    log: seq<Event>,
    sent: seq<Sent>,
    finished: seq<Finished>)

  datatype Step =
    | Receive(request: Request)
    | Begin(now: int, fault: Fault)
    | Launch
    | Finish(n: nat, environment: Executor.Environment, now: int, fault: Fault)
    | Depart(n: nat)
    | Reconnect(begun: map<nat, nat>)
    | Crash

  const INITIAL := State(map[], 0, {}, Idle, map[], map[], map[], 0, [], [], [])

  // ---------------------------------------------------------------------------------------------
  // Steps
  // ---------------------------------------------------------------------------------------------

  /** The reply to a request whose ID the ledger already holds. */
  function Replay(entry: Entry, fingerprint: Fingerprint): JobResult {
    if entry.fingerprint != fingerprint then Failure(OperationIdConflict)
    else if entry.completed && entry.result.Some? then entry.result.value
    else Failure(RecoveryRequired)
  }

  predicate Admissible(a: State, id: JobId) {
    SafeJobId(id) && id !in a.active && |a.active| < MAX_ACTIVE
  }

  function AfterReceive(a: State, r: Request): State {
    if !SafeJobId(r.jobId) then a.(sent := a.sent + [Sent(r.jobId, Failure(InvalidOperationId))])
    else if !Admissible(a, r.jobId) then a
    else a.(active := a.active + {r.jobId}, loop := Holding(r))
  }

  function Refused(a: State, id: JobId, result: JobResult): State {
    a.(active := a.active - {id}, loop := Idle, sent := a.sent + [Sent(id, result)])
  }

  function AfterBegin(a: State, disk: Jobs, reply: BeginReply): State
    requires a.loop.Holding?
  {
    var r := a.loop.request;
    match reply
    case Unavailable => Refused(a, r.jobId, Failure(DurableStateUnavailable)).(disk := disk)
    case Existing(entry) => Refused(a, r.jobId, Replay(entry, Sha256(r.content))).(disk := disk)
    case Admitted =>
      a.(disk := disk, loop := Written(r), log := a.log + [Evicted(a.disk.Keys - disk.Keys), Wrote(r.jobId)])
  }

  function AfterLaunch(a: State): State
    requires a.loop.Written?
  {
    a.(loop := Idle,
       executing := a.executing[a.starts := Job(a.loop.request, a.connection)],
       starts := a.starts + 1,
       log := a.log + [Started(a.loop.request.jobId)])
  }

  function AfterFinish(a: State, n: nat, e: Executor.Environment, disk: Jobs, ok: bool): State
    requires n in a.executing
  {
    var r := a.executing[n].request;
    var result := if ok then Executor.ReportedRun(r.content, e) else Failure(DurableStateUnavailable);
    a.(disk := disk,
       executing := a.executing - {n},
       lostAt := a.lostAt - {n},
       finishing := a.finishing[n := a.executing[n]],
       log := a.log + (if ok then [Recorded(r.jobId), Evicted(a.disk.Keys + {r.jobId} - disk.Keys)] else []),
       sent := a.sent + [Sent(r.jobId, result)],
       finished := a.finished + [Finished(r, e, a.executing[n].connection == a.connection)])
  }

  function AfterDepart(a: State, n: nat): State
    requires n in a.finishing
  {
    var job := a.finishing[n];
    a.(finishing := a.finishing - {n},
       active := if job.connection == a.connection then a.active - {job.request.jobId} else a.active)
  }

  /** The stream is lost, which cancels the context of every execution; `begun` tells how many attempts each
      has begun by then, none if it is not listed. The executions go on, and the agent connects again. */
  function AfterReconnect(a: State, begun: map<nat, nat>): State {
    a.(connection := a.connection + 1,
       active := {},
       lostAt := map n | n in a.executing :: if n in a.lostAt then a.lostAt[n] else BegunBy(begun, n))
  }

  function BegunBy(begun: map<nat, nat>, n: nat): nat {
    if n in begun then begun[n] else 0
  }

  function AfterCrash(a: State): State {
    a.(connection := a.connection + 1, active := {}, loop := Idle,
       executing := map[], lostAt := map[], finishing := map[])
  }

  /** An execution meets a context that stays cancelled once it is, and after the loss of its stream is. */
  predicate MayMeet(a: State, n: nat, e: Executor.Environment) {
    Executor.Monotone(e) && (n in a.lostAt ==> Executor.CancelledFrom(e, a.lostAt[n]))
  }

  ghost predicate Next(a: State, step: Step, b: State) {
    match step
    case Receive(r) => a.loop.Idle? && b == AfterReceive(a, r)
    case Begin(now, fault) =>
      a.loop.Holding?
      && exists reply ::
           && BeginStep(a.disk, a.loop.request.jobId, Sha256(a.loop.request.content), now, fault, b.disk, reply)
           && b == AfterBegin(a, b.disk, reply)
    case Launch => a.loop.Written? && b == AfterLaunch(a)
    case Finish(n, e, now, fault) =>
      n in a.executing && MayMeet(a, n, e)
      && exists ok ::
           && CompleteStep(a.disk, a.executing[n].request.jobId, Sha256(a.executing[n].request.content),
                           Executor.ReportedRun(a.executing[n].request.content, e), now, fault, b.disk, ok)
           && b == AfterFinish(a, n, e, b.disk, ok)
    case Depart(n) => n in a.finishing && b == AfterDepart(a, n)
    case Reconnect(begun) => a.loop.Idle? && b == AfterReconnect(a, begun)
    case Crash => b == AfterCrash(a)
  }

  ghost predicate IsRun(states: seq<State>, steps: seq<Step>) {
    && |states| == |steps| + 1
    && states[0] == INITIAL
    && forall i {:trigger StepAt(states, steps, i)} :: 0 <= i < |steps| ==> StepAt(states, steps, i)
  }

  ghost predicate StepAt(states: seq<State>, steps: seq<Step>, i: nat)
    requires i < |steps| && i + 1 < |states|
  {
    Next(states[i], steps[i], states[i + 1])
  }

  // ---------------------------------------------------------------------------------------------
  // The life of one job ID, read off the log
  // ---------------------------------------------------------------------------------------------

  datatype Life = Unheard | InLedger | Running | Resolved | Broken

  /** The only lawful order is: written, started, recorded, evicted, and then possibly written again.
      A job may also stay for ever at any of these points. */
  function Advance(life: Life, event: Event, id: JobId): Life {
    match event
    case Wrote(x) => if x != id then life else if life == Unheard then InLedger else Broken
    case Started(x) => if x != id then life else if life == InLedger then Running else Broken
    case Recorded(x) => if x != id then life else if life == Running then Resolved else Broken
    case Evicted(xs) => if id !in xs then life else if life == Resolved then Unheard else Broken
  }

  function LifeOf(log: seq<Event>, id: JobId): Life {
    if log == [] then Unheard else Advance(LifeOf(log[..|log| - 1], id), log[|log| - 1], id)
  }

  lemma LifeExtendedTwice(log: seq<Event>, first: Event, second: Event, id: JobId)
    ensures LifeOf(log + [first, second], id) == Advance(Advance(LifeOf(log, id), first, id), second, id)
  {
    assert log + [first, second] == log + [first] + [second];
  }

  // ---------------------------------------------------------------------------------------------
  // Invariant
  // ---------------------------------------------------------------------------------------------

  /** The ledger holds this request, unresolved. */
  predicate HeldInFlight(disk: Jobs, r: Request) {
    r.jobId in disk && !disk[r.jobId].completed && disk[r.jobId].fingerprint == Sha256(r.content)
  }

  ghost predicate LogAgrees(a: State, id: JobId) {
    var life := LifeOf(a.log, id);
    && life != Broken
    && (life == Unheard <==> id !in a.disk)
    && (life == Resolved <==> id in a.disk && a.disk[id].completed)
    && (a.loop.Written? && a.loop.request.jobId == id ==> life == InLedger)
    && (forall n :: n in a.executing && a.executing[n].request.jobId == id ==> life == Running)
  }

  ghost predicate Inv(a: State) {
    Core(a) && Streams(a)
  }

  /** The executions of earlier connections are those whose stream was lost, and whatever finished after
      that finished under a cancelled context. */
  ghost predicate Streams(a: State) {
    && (forall n :: n in a.lostAt <==> n in a.executing && a.executing[n].connection != a.connection)
    && (forall n :: n in a.executing ==> n < a.starts && a.executing[n].connection <= a.connection)
    && (forall k :: 0 <= k < |a.finished| ==> a.finished[k].own || a.finished[k].environment.cancelledAtEnd)
  }

  /** What a step may change of the executions and the histories. */
  lemma StepFrame(a: State, step: Step, b: State)
    requires Next(a, step, b)
    ensures a.log <= b.log && a.starts <= b.starts && a.connection <= b.connection
    ensures !step.Launch? && !step.Finish? && !step.Crash? ==> b.executing == a.executing
    ensures !step.Finish? ==> b.finished == a.finished
    ensures !step.Finish? && !step.Reconnect? && !step.Crash? ==> b.lostAt == a.lostAt
    ensures !step.Reconnect? && !step.Crash? ==> b.connection == a.connection
    ensures b.loop.Written? && b.loop != a.loop ==> step.Begin?
  {
    match step
    case Receive(r) =>
    case Begin(now, fault) => BeginFrame(a, now, fault, b);
    case Finish(n, e, now, fault) => FinishFrame(a, n, e, now, fault, b);
    case _ =>
  }

  lemma BeginLeaves(a: State, b: State, reply: BeginReply)
    requires a.loop.Holding? && b == AfterBegin(a, b.disk, reply)
    ensures b.executing == a.executing && b.lostAt == a.lostAt && b.finished == a.finished
    ensures a.log <= b.log && b.starts == a.starts && b.connection == a.connection
  {
  }

  lemma BeginFrame(a: State, now: int, fault: Fault, b: State)
    requires Next(a, Begin(now, fault), b)
    ensures b.executing == a.executing && b.lostAt == a.lostAt && b.finished == a.finished
    ensures a.log <= b.log && b.starts == a.starts && b.connection == a.connection
  {
    var reply :| b == AfterBegin(a, b.disk, reply);
    BeginLeaves(a, b, reply);
  }

  lemma FinishFrame(a: State, n: nat, e: Executor.Environment, now: int, fault: Fault, b: State)
    requires Next(a, Finish(n, e, now, fault), b)
    ensures n in a.executing && b.executing == a.executing - {n} && b.lostAt == a.lostAt - {n}
    ensures b.finishing == a.finishing[n := a.executing[n]] && b.active == a.active && b.loop == a.loop
    ensures b.finished == a.finished + [Finished(a.executing[n].request, e, a.executing[n].connection == a.connection)]
    ensures a.log <= b.log && b.starts == a.starts && b.connection == a.connection
  {
    var ok :| b == AfterFinish(a, n, e, b.disk, ok);
  }

  lemma StreamsNext(a: State, step: Step, b: State)
    requires Streams(a) && Next(a, step, b)
    ensures Streams(b)
  {
    match step
    case Finish(n, e, now, fault) => FinishFrame(a, n, e, now, fault, b);
    case Launch =>
    case Reconnect(_) =>
    case Crash =>
    case _ => StepFrame(a, step, b);
  }

  ghost predicate Core(a: State) {
    && Sound(a)
    && (forall id {:trigger LogAgrees(a, id)} :: LogAgrees(a, id))
  }

  /** What the ledger and the executions have to do with one another, apart from the log. */
  ghost predicate Sound(a: State) {
    && |a.disk| <= MAX_JOBS
    && (forall n :: n in a.executing ==> n < a.starts && HeldInFlight(a.disk, a.executing[n].request))
    && (forall m, n :: m in a.executing && n in a.executing && m != n
          ==> a.executing[m].request.jobId != a.executing[n].request.jobId)
    && (a.loop.Written? ==> HeldInFlight(a.disk, a.loop.request))
    && (forall id :: id in a.disk ==> (a.disk[id].completed <==> a.disk[id].result.Some?))
  }

  /** An admission turns an ID unknown to the ledger into a written one and forgets the evicted ones. */
  lemma AdmissionLog(a: State, b: State, id: JobId)
    requires a.loop.Holding? && b == AfterBegin(a, b.disk, Admitted)
    requires a.loop.request.jobId !in a.disk && a.loop.request.jobId in b.disk
    requires !b.disk[a.loop.request.jobId].completed
    requires id in a.disk && !a.disk[id].completed ==> id in b.disk
    requires id in b.disk && id != a.loop.request.jobId ==> id in a.disk && b.disk[id] == a.disk[id]
    requires LogAgrees(a, id)
    ensures LogAgrees(b, id)
  {
    var gone := a.disk.Keys - b.disk.Keys;
    LifeExtendedTwice(a.log, Evicted(gone), Wrote(a.loop.request.jobId), id);
  }

  lemma BeginReplyOf(a: State, now: int, fault: Fault, b: State) returns (reply: BeginReply)
    requires |a.disk| <= MAX_JOBS && Next(a, Begin(now, fault), b)
    ensures BeginEffect(a.disk, a.loop.request.jobId, Sha256(a.loop.request.content), now, b.disk, reply)
    ensures b == AfterBegin(a, b.disk, reply)
  {
    var r := a.loop.request;
    reply :| BeginStep(a.disk, r.jobId, Sha256(r.content), now, fault, b.disk, reply)
             && b == AfterBegin(a, b.disk, reply);
    BeginKeeps(a.disk, r.jobId, Sha256(r.content), now, fault, b.disk, reply);
  }

  lemma SoundBegin(a: State, now: int, b: State, reply: BeginReply)
    requires Sound(a) && a.loop.Holding? && b == AfterBegin(a, b.disk, reply)
    requires BeginEffect(a.disk, a.loop.request.jobId, Sha256(a.loop.request.content), now, b.disk, reply)
    ensures Sound(b)
  {
  }

  lemma InvBegin(a: State, now: int, fault: Fault, b: State)
    requires Core(a) && Next(a, Begin(now, fault), b)
    ensures Core(b)
  {
    var reply := BeginReplyOf(a, now, fault, b);
    SoundBegin(a, now, b, reply);
    forall id ensures LogAgrees(b, id) {
      assert LogAgrees(a, id);
      if reply.Admitted? { AdmissionLog(a, b, id); }
    }
  }

  lemma InvLaunch(a: State, b: State)
    requires Core(a) && Next(a, Launch, b)
    ensures Core(b)
  {
    var r := a.loop.request;
    assert LogAgrees(a, r.jobId);
    forall id ensures LogAgrees(b, id) {
      assert LogAgrees(a, id);
    }
  }

  /** Recording a result resolves exactly the job that ran. */
  lemma FinishLog(a: State, n: nat, e: Executor.Environment, b: State, ok: bool, id: JobId)
    requires n in a.executing && b == AfterFinish(a, n, e, b.disk, ok)
    requires HeldInFlight(a.disk, a.executing[n].request)
    requires b.disk.Keys == a.disk.Keys
    requires id in a.disk ==>
               b.disk[id].completed == (a.disk[id].completed || (ok && id == a.executing[n].request.jobId))
    requires forall m :: m in a.executing && m != n ==> a.executing[m].request.jobId != a.executing[n].request.jobId
    requires LogAgrees(a, id)
    ensures LogAgrees(b, id)
  {
    if ok {
      var r := a.executing[n].request;
      var gone := a.disk.Keys + {r.jobId} - b.disk.Keys;
      LifeExtendedTwice(a.log, Recorded(r.jobId), Evicted(gone), id);
    } else {
      assert b.log == a.log;
    }
  }

  lemma SoundFinish(a: State, n: nat, e: Executor.Environment, b: State, ok: bool, done: Entry)
    requires Sound(a) && n in a.executing && b == AfterFinish(a, n, e, b.disk, ok)
    requires done.completed && done.result.Some?
    requires b.disk == if ok then a.disk[a.executing[n].request.jobId := done] else a.disk
    requires a.loop.Written? ==> a.loop.request.jobId != a.executing[n].request.jobId
    ensures Sound(b) && b.disk.Keys == a.disk.Keys
  {
    assert b.disk.Keys == a.disk.Keys;
    assert |b.disk| == |b.disk.Keys| == |a.disk.Keys| == |a.disk|;
  }

  lemma InvFinish(a: State, n: nat, e: Executor.Environment, now: int, fault: Fault, b: State)
    requires Core(a) && Next(a, Finish(n, e, now, fault), b)
    ensures Core(b)
  {
    var r := a.executing[n].request;
    var ok := FinishedDisk(a, n, e, now, fault, b);
    assert LogAgrees(a, r.jobId);
    SoundFinish(a, n, e, b, ok, Done(Sha256(r.content), Executor.ReportedRun(r.content, e), now));
    forall id ensures LogAgrees(b, id) {
      assert LogAgrees(a, id);
      FinishLog(a, n, e, b, ok, id);
    }
  }

  /** Finishing a job writes its result, or on a failing file system leaves the ledger alone. */
  lemma FinishedDisk(a: State, n: nat, e: Executor.Environment, now: int, fault: Fault, b: State) returns (ok: bool)
    requires Core(a) && Next(a, Finish(n, e, now, fault), b)
    ensures ok == fault.Healthy? && b == AfterFinish(a, n, e, b.disk, ok)
    ensures var r := a.executing[n].request;
      b.disk == if ok then a.disk[r.jobId := Done(Sha256(r.content), Executor.ReportedRun(r.content, e), now)]
                else a.disk
  {
    var r := a.executing[n].request;
    var result := Executor.ReportedRun(r.content, e);
    ok :| CompleteStep(a.disk, r.jobId, Sha256(r.content), result, now, fault, b.disk, ok)
          && b == AfterFinish(a, n, e, b.disk, ok);
    CompleteKeeps(a.disk, r.jobId, Sha256(r.content), result, now, fault, b.disk, ok);
  }

  /** `b` differs from `a` in nothing the core of the invariant mentions, except that executions may be gone. */
  predicate Quiet(a: State, b: State) {
    && b.disk == a.disk && b.log == a.log && b.starts == a.starts
    && (b.executing == a.executing || b.executing == map[])
    && (b.loop == a.loop || !b.loop.Written?)
  }

  lemma QuietSteps(a: State, step: Step, b: State)
    requires Next(a, step, b)
    requires step.Receive? || step.Depart? || step.Reconnect? || step.Crash?
    ensures Quiet(a, b)
  {
  }

  lemma InvQuiet(a: State, b: State)
    requires Core(a) && Quiet(a, b)
    ensures Core(b)
  {
    forall id ensures LogAgrees(b, id) { assert LogAgrees(a, id); }
  }

  lemma InvNext(a: State, step: Step, b: State)
    requires Inv(a) && Next(a, step, b)
    ensures Inv(b)
  {
    StreamsNext(a, step, b);
    match step
    case Begin(now, fault) => InvBegin(a, now, fault, b);
    case Launch => InvLaunch(a, b);
    case Finish(n, e, now, fault) => InvFinish(a, n, e, now, fault, b);
    case _ => QuietSteps(a, step, b); InvQuiet(a, b);
  }

  lemma {:induction false} InvRun(states: seq<State>, steps: seq<Step>, i: nat)
    requires IsRun(states, steps) && i < |states|
    ensures Inv(states[i])
  {
    if i > 0 {
      InvRun(states, steps, i - 1);
      assert StepAt(states, steps, i - 1);
      InvNext(states[i - 1], steps[i - 1], states[i]);
    }
  }

  // ---------------------------------------------------------------------------------------------
  // An ID starts once between evictions of its completed entry
  // ---------------------------------------------------------------------------------------------

  lemma {:induction false} PrefixUnbroken(log: seq<Event>, id: JobId, n: nat)
    requires LifeOf(log, id) != Broken && n <= |log|
    ensures LifeOf(log[..n], id) != Broken
    decreases |log| - n
  {
    if n < |log| {
      PrefixUnbroken(log, id, n + 1);
      assert log[..n + 1] == log[..n] + [log[n]];
    } else {
      assert log[..n] == log;
    }
  }

  lemma LifeAt(log: seq<Event>, id: JobId, p: nat)
    requires LifeOf(log, id) != Broken && p < |log|
    ensures LifeOf(log[..p + 1], id) == Advance(LifeOf(log[..p], id), log[p], id) != Broken
  {
    PrefixUnbroken(log, id, p + 1);
    assert log[..p + 1] == log[..p] + [log[p]];
  }

  /** A life that has left the stage `from` for good reasons left it through the one event that ends it. */
  lemma {:induction false} LeavesStage(log: seq<Event>, id: JobId, from: Life, p: nat, q: nat) returns (k: nat)
    requires from == Running || from == Resolved
    requires p <= q <= |log| && LifeOf(log, id) != Broken
    requires LifeOf(log[..p], id) == from && LifeOf(log[..q], id) != from
    ensures p <= k < q
    ensures from == Running ==> log[k] == Recorded(id) && LifeOf(log[..k + 1], id) == Resolved
    ensures from == Resolved ==> log[k].Evicted? && id in log[k].ids
    decreases q - p
  {
    LifeAt(log, id, p);
    if LifeOf(log[..p + 1], id) == from {
      k := LeavesStage(log, id, from, p + 1, q);
    } else {
      k := p;
    }
  }

  /** Between any two starts of one ID its result was recorded, and then its completed entry evicted. */
  ghost predicate Separated(log: seq<Event>, id: JobId, i: nat, j: nat)
    requires i < j < |log|
  {
    exists k, m :: i < k < m < j && log[k] == Recorded(id) && log[m].Evicted? && id in log[m].ids
  }

  /** A start finds its ID in the ledger and leaves it running. */
  lemma AtStart(log: seq<Event>, id: JobId, i: nat)
    requires LifeOf(log, id) != Broken && i < |log| && log[i] == Started(id)
    ensures LifeOf(log[..i], id) == InLedger && LifeOf(log[..i + 1], id) == Running
  {
    LifeAt(log, id, i);
  }

  lemma StartsAreSeparated(log: seq<Event>, id: JobId, i: nat, j: nat)
    requires LifeOf(log, id) != Broken
    requires i < j < |log| && log[i] == Started(id) && log[j] == Started(id)
    ensures Separated(log, id, i, j)
  {
    AtStart(log, id, i);
    AtStart(log, id, j);
    var k := LeavesStage(log, id, Running, i + 1, j);
    var m := LeavesStage(log, id, Resolved, k + 1, j);
  }

  /** In every run, with crashes, lost streams and reconnects at any point, two executions of one job ID
      are separated by the recording of the first one's result and the eviction of that entry. */
  lemma StartsAtMostOnceBetweenEvictions(states: seq<State>, steps: seq<Step>, n: nat, id: JobId, i: nat, j: nat)
    requires IsRun(states, steps) && n < |states|
    requires i < j < |states[n].log| && states[n].log[i] == Started(id) && states[n].log[j] == Started(id)
    ensures Separated(states[n].log, id, i, j)
  {
    InvRun(states, steps, n);
    assert LogAgrees(states[n], id);
    StartsAreSeparated(states[n].log, id, i, j);
  }

  lemma AdmittedWasAbsent(a: State, now: int, fault: Fault, b: State)
    requires Inv(a) && Next(a, Begin(now, fault), b) && b.loop.Written?
    ensures a.loop == Holding(b.loop.request)
    ensures b.loop.request.jobId !in a.disk && HeldInFlight(b.disk, b.loop.request)
  {
    var reply := BeginReplyOf(a, now, fault, b);
  }

  /** The loop comes to hold an admitted request only by admitting it. */
  lemma BecomesWritten(a: State, step: Step, b: State)
    requires Inv(a) && Next(a, step, b) && b.loop.Written? && a.loop != b.loop
    ensures step.Begin? && a.loop == Holding(b.loop.request)
    ensures b.loop.request.jobId !in a.disk && HeldInFlight(b.disk, b.loop.request)
  {
    StepFrame(a, step, b);
    AdmittedWasAbsent(a, step.now, step.fault, b);
  }

  lemma {:induction false} WrittenWasAbsent(states: seq<State>, steps: seq<Step>, i: nat) returns (k: nat)
    requires IsRun(states, steps) && i < |states| && states[i].loop.Written?
    ensures k < i && steps[k].Begin? && states[k].loop == Holding(states[i].loop.request)
    ensures states[i].loop.request.jobId !in states[k].disk
    ensures HeldInFlight(states[k + 1].disk, states[i].loop.request)
  {
    assert i > 0;
    if states[i - 1].loop == states[i].loop {
      k := WrittenWasAbsent(states, steps, i - 1);
    } else {
      InvRun(states, steps, i - 1);
      assert StepAt(states, steps, i - 1);
      BecomesWritten(states[i - 1], steps[i - 1], states[i]);
      k := i - 1;
    }
  }

  /** An execution starts only from a request whose ID an earlier ledger did not hold and that the ledger
      now holds unresolved; no other execution of that ID is alive, not even one of an older connection. */
  lemma StartsOnlyWhatIsDurable(states: seq<State>, steps: seq<Step>, i: nat, r: Request) returns (k: nat)
    requires IsRun(states, steps) && i < |steps| && steps[i] == Launch && states[i].loop == Written(r)
    ensures k < i && steps[k].Begin? && states[k].loop == Holding(r)
    ensures r.jobId !in states[k].disk && HeldInFlight(states[i].disk, r)
    ensures forall n :: n in states[i].executing ==> states[i].executing[n].request.jobId != r.jobId
  {
    InvRun(states, steps, i);
    assert LogAgrees(states[i], r.jobId);
    k := WrittenWasAbsent(states, steps, i);
  }

  // ---------------------------------------------------------------------------------------------
  // Entries persist, and replies replay them
  // ---------------------------------------------------------------------------------------------

  /** What the log gained between two states. */
  function Since(a: State, b: State): seq<Event> {
    if a.log <= b.log then b.log[|a.log|..] else []
  }

  /** The events tell that this entry was resolved, if it was not, or evicted, if it was. */
  predicate Ended(entry: Entry, id: JobId, events: seq<Event>) {
    if entry.completed then EvictedAmong(events, id) else Recorded(id) in events
  }

  predicate EvictedAmong(events: seq<Event>, id: JobId) {
    exists k :: 0 <= k < |events| && events[k].Evicted? && id in events[k].ids
  }

  lemma EntryBegin(a: State, now: int, fault: Fault, b: State, id: JobId)
    requires |a.disk| <= MAX_JOBS && Next(a, Begin(now, fault), b) && id in a.disk
    ensures Ended(a.disk[id], id, Since(a, b)) || (id in b.disk && b.disk[id] == a.disk[id])
  {
    var reply := BeginReplyOf(a, now, fault, b);
    if reply.Admitted? && id !in b.disk {
      assert Since(a, b)[0] == Evicted(a.disk.Keys - b.disk.Keys);
    }
  }

  lemma EntryFinish(a: State, n: nat, e: Executor.Environment, now: int, fault: Fault, b: State, id: JobId)
    requires Inv(a) && Next(a, Finish(n, e, now, fault), b) && id in a.disk
    ensures Ended(a.disk[id], id, Since(a, b)) || (id in b.disk && b.disk[id] == a.disk[id])
  {
    var ok := FinishedDisk(a, n, e, now, fault, b);
    if ok && id == a.executing[n].request.jobId {
      assert Since(a, b)[0] == Recorded(id);
    }
  }

  lemma EntryStep(a: State, step: Step, b: State, id: JobId)
    requires Inv(a) && Next(a, step, b) && id in a.disk
    ensures Ended(a.disk[id], id, Since(a, b)) || (id in b.disk && b.disk[id] == a.disk[id])
  {
    match step
    case Begin(now, fault) => EntryBegin(a, now, fault, b, id);
    case Finish(n, e, now, fault) => EntryFinish(a, n, e, now, fault, b, id);
    case Launch =>
    case _ => QuietSteps(a, step, b);
  }

  /** An entry of `a` is still there in `b`, unless the log tells of its end. */
  predicate Kept(a: State, b: State, id: JobId)
    requires id in a.disk
  {
    && a.log <= b.log
    && (Ended(a.disk[id], id, Since(a, b)) || (id in b.disk && b.disk[id] == a.disk[id]))
  }

  lemma KeptJoins(a: State, b: State, c: State, id: JobId)
    requires id in a.disk && Kept(a, b, id) && b.log <= c.log
    requires id in b.disk ==> Kept(b, c, id)
    ensures Kept(a, c, id)
  {
  }

  /** An unresolved entry stays, with its fingerprint, until its own result is recorded; a completed one
      stays, with its result, until it is evicted. Crashes, restarts and other jobs do not matter. */
  lemma {:induction false} EntriesPersist(states: seq<State>, steps: seq<Step>, i: nat, j: nat, id: JobId)
    requires IsRun(states, steps) && i <= j < |states| && id in states[i].disk
    ensures Kept(states[i], states[j], id)
    decreases j - i
  {
    if i < j {
      EntriesPersist(states, steps, i, j - 1, id);
      InvRun(states, steps, j - 1);
      assert StepAt(states, steps, j - 1);
      StepFrame(states[j - 1], steps[j - 1], states[j]);
      if id in states[j - 1].disk { EntryStep(states[j - 1], steps[j - 1], states[j], id); }
      KeptJoins(states[i], states[j - 1], states[j], id);
    }
  }

  /** The last frame sent, if the step sent one. */
  predicate Replied(a: State, b: State, id: JobId, result: JobResult) {
    b.sent == a.sent + [Sent(id, result)]
  }

  /** While the ledger holds an ID, the reply to a request for it is decided by the entry alone, apart
      from an unreadable ledger: a conflict if the content is another one, completed or not; else the recorded
      result if there is one; else the advice to recover. Nothing starts, the ledger does not change, and the
      slot is free again. */
  lemma RepliesFromTheEntry(a: State, now: int, fault: Fault, b: State)
    requires Inv(a) && Next(a, Begin(now, fault), b) && a.loop.request.jobId in a.disk
    ensures var id := a.loop.request.jobId; var entry := a.disk[id];
      && b == a.(loop := Idle, active := a.active - {id}, sent := b.sent)
      && (fault.NoProjectRoot? || fault.ReadFails? ==> Replied(a, b, id, Failure(DurableStateUnavailable)))
      && (fault.Healthy? || fault.WriteFails? ==>
            if entry.fingerprint != Sha256(a.loop.request.content) then Replied(a, b, id, Failure(OperationIdConflict))
            else if entry.completed then entry.result.Some? && Replied(a, b, id, entry.result.value)
            else Replied(a, b, id, Failure(RecoveryRequired)))
  {
    var reply := BeginReplyOf(a, now, fault, b);
  }

  /** A request whose ID the ledger does not hold is admitted, without a reply and durably, if the file system
      is healthy and fewer than 256 entries are unresolved; otherwise it is refused, nothing is written, and
      its slot is free again. */
  lemma AnswersUnknown(a: State, now: int, fault: Fault, b: State)
    requires Inv(a) && Next(a, Begin(now, fault), b) && a.loop.request.jobId !in a.disk
    ensures var r := a.loop.request;
      if fault.Healthy? && |Unresolved(a.disk)| < MAX_JOBS then
        && b.loop == Written(r) && r.jobId in b.disk && b.disk[r.jobId] == Entry(Sha256(r.content), false, None, now)
        && b.sent == a.sent && b.active == a.active
      else
        && b == a.(loop := Idle, active := a.active - {r.jobId}, sent := b.sent)
        && Replied(a, b, r.jobId, Failure(DurableStateUnavailable))
  {
    var r := a.loop.request;
    var reply :| BeginStep(a.disk, r.jobId, Sha256(r.content), now, fault, b.disk, reply)
                 && b == AfterBegin(a, b.disk, reply);
  }

  lemma RecordedOnDisk(states: seq<State>, steps: seq<Step>, i: nat, r: Request)
    requires IsRun(states, steps) && i < |steps| && steps[i].Finish? && steps[i].fault.Healthy?
    requires steps[i].n in states[i].executing && states[i].executing[steps[i].n].request == r
    ensures r.jobId in states[i + 1].disk
    ensures states[i + 1].disk[r.jobId]
            == Done(Sha256(r.content), Executor.ReportedRun(r.content, steps[i].environment), steps[i].now)
  {
    InvRun(states, steps, i);
    assert StepAt(states, steps, i);
    var ok := FinishedDisk(states[i], steps[i].n, steps[i].environment, steps[i].now, steps[i].fault, states[i + 1]);
  }

  lemma AnswersCompleted(states: seq<State>, steps: seq<Step>, j: nat, r: Request)
    requires IsRun(states, steps) && j < |steps| && steps[j].Begin? && states[j].loop == Holding(r)
    requires steps[j].fault.Healthy? || steps[j].fault.WriteFails?
    requires r.jobId in states[j].disk && states[j].disk[r.jobId].completed
    requires states[j].disk[r.jobId].result.Some? && states[j].disk[r.jobId].fingerprint == Sha256(r.content)
    ensures Replied(states[j], states[j + 1], r.jobId, states[j].disk[r.jobId].result.value)
  {
    InvRun(states, steps, j);
    assert StepAt(states, steps, j);
    RepliesFromTheEntry(states[j], steps[j].now, steps[j].fault, states[j + 1]);
  }

  /** Once a result is on disk, every later request with the same content is answered with that very
      result, on any connection and after any crash, until the entry is evicted. */
  lemma ReplaysRecordedResult(states: seq<State>, steps: seq<Step>, i: nat, j: nat, r: Request)
    requires IsRun(states, steps) && i < j < |steps|
    requires steps[i].Finish? && steps[i].fault.Healthy?
    requires steps[i].n in states[i].executing && states[i].executing[steps[i].n].request == r
    requires steps[j].Begin? && states[j].loop == Holding(r)
    requires steps[j].fault.Healthy? || steps[j].fault.WriteFails?
    requires !EvictedAmong(Since(states[i + 1], states[j]), r.jobId)
    ensures Replied(states[j], states[j + 1], r.jobId, Executor.ReportedRun(r.content, steps[i].environment))
  {
    RecordedOnDisk(states, steps, i, r);
    EntriesPersist(states, steps, i + 1, j, r.jobId);
    AnswersCompleted(states, steps, j, r);
  }

  /** An operation admitted and never resolved is not run again: whatever comes in between, a repeated
      request is told to recover, or that it conflicts, or that the ledger cannot be read. */
  lemma UnresolvedIsNeverRerun(states: seq<State>, steps: seq<Step>, i: nat, j: nat, r: Request)
    requires IsRun(states, steps) && i <= j < |steps|
    requires steps[j].Begin? && states[j].loop == Holding(r)
    requires r.jobId in states[i].disk && !states[i].disk[r.jobId].completed
    requires Recorded(r.jobId) !in Since(states[i], states[j])
    ensures states[j + 1].disk == states[j].disk && states[j + 1].executing == states[j].executing
    ensures Replied(states[j], states[j + 1], r.jobId, Failure(
              if steps[j].fault.NoProjectRoot? || steps[j].fault.ReadFails? then DurableStateUnavailable
              else if states[i].disk[r.jobId].fingerprint == Sha256(r.content) then RecoveryRequired
              else OperationIdConflict))
  {
    InvRun(states, steps, j);
    assert StepAt(states, steps, j);
    EntriesPersist(states, steps, i, j, r.jobId);
    RepliesFromTheEntry(states[j], steps[j].now, steps[j].fault, states[j + 1]);
  }

  /** The ledger is bounded, and keeps every unresolved operation, in every state of every run. */
  lemma LedgerIsBounded(states: seq<State>, steps: seq<Step>, i: nat)
    requires IsRun(states, steps) && i < |states|
    ensures |states[i].disk| <= MAX_JOBS
    ensures forall n :: n in states[i].executing ==> HeldInFlight(states[i].disk, states[i].executing[n].request)
  {
    InvRun(states, steps, i);
  }

  // ---------------------------------------------------------------------------------------------
  // The four slots of a connection
  // ---------------------------------------------------------------------------------------------

  /** The executions that have not departed, by number. */
  function Undeparted(a: State): map<nat, Job> {
    a.executing + a.finishing
  }

  /** The request the receive loop is busy with. */
  function Waiting(loop: Loop): Option<JobId> {
    if loop.Idle? then None else Some(loop.request.jobId)
  }

  /** Execution `n` was started on this connection. */
  predicate On(jobs: map<nat, Job>, connection: nat, n: nat) {
    n in jobs && jobs[n].connection == connection
  }

  /** The ID is that of the waiting request, or of an execution of this connection. */
  ghost predicate InUse(waiting: Option<JobId>, jobs: map<nat, Job>, connection: nat, id: JobId) {
    waiting == Some(id)
    || exists n: nat {:trigger On(jobs, connection, n)} :: On(jobs, connection, n) && jobs[n].request.jobId == id
  }

  /** The slots that are taken are those in use, by one use each, and there are no more than four. */
  ghost predicate Accounted(active: set<JobId>, waiting: Option<JobId>, jobs: map<nat, Job>, connection: nat) {
    && |active| <= MAX_ACTIVE
    && (forall id {:trigger InUse(waiting, jobs, connection, id)} ::
          id in active <==> InUse(waiting, jobs, connection, id))
    && (forall n: nat {:trigger On(jobs, connection, n)} ::
          On(jobs, connection, n) ==> waiting != Some(jobs[n].request.jobId))
    && (forall m: nat, n: nat {:trigger On(jobs, connection, m), On(jobs, connection, n)} ::
          On(jobs, connection, m) && On(jobs, connection, n) && m != n
          ==> jobs[m].request.jobId != jobs[n].request.jobId)
  }

  ghost predicate Slots(a: State) {
    && Accounted(a.active, Waiting(a.loop), Undeparted(a), a.connection)
    && (forall n :: n in Undeparted(a) ==> n < a.starts && Undeparted(a)[n].connection <= a.connection)
    && a.executing.Keys !! a.finishing.Keys
  }

  lemma SlotTaken(active: set<JobId>, jobs: map<nat, Job>, connection: nat, id: JobId)
    requires Accounted(active, None, jobs, connection) && id !in active && |active| < MAX_ACTIVE
    ensures Accounted(active + {id}, Some(id), jobs, connection)
  {
    assert !InUse(None, jobs, connection, id);
    forall x ensures x in active + {id} <==> InUse(Some(id), jobs, connection, x) {
      assert x in active <==> InUse(None, jobs, connection, x);
    }
  }

  lemma SlotRefused(active: set<JobId>, jobs: map<nat, Job>, connection: nat, id: JobId)
    requires Accounted(active, Some(id), jobs, connection)
    ensures Accounted(active - {id}, None, jobs, connection)
  {
    forall x ensures x in active - {id} <==> InUse(None, jobs, connection, x) {
      assert x in active <==> InUse(Some(id), jobs, connection, x);
    }
  }

  lemma SlotStarted(active: set<JobId>, jobs: map<nat, Job>, connection: nat, n: nat, r: Request)
    requires Accounted(active, Some(r.jobId), jobs, connection) && n !in jobs
    ensures Accounted(active, None, jobs[n := Job(r, connection)], connection)
  {
    var more := jobs[n := Job(r, connection)];
    assert On(more, connection, n);
    assert forall m: nat :: m != n ==> (On(more, connection, m) <==> On(jobs, connection, m));
    forall x ensures x in active <==> InUse(None, more, connection, x) {
      assert x in active <==> InUse(Some(r.jobId), jobs, connection, x);
      if m: nat :| On(jobs, connection, m) && jobs[m].request.jobId == x { assert On(more, connection, m); }
    }
  }

  lemma SlotFreed(active: set<JobId>, waiting: Option<JobId>, jobs: map<nat, Job>, connection: nat, n: nat)
    requires Accounted(active, waiting, jobs, connection) && n in jobs
    ensures Accounted(if On(jobs, connection, n) then active - {jobs[n].request.jobId} else active, waiting,
                      jobs - {n}, connection)
  {
    var fewer := jobs - {n};
    var left := if On(jobs, connection, n) then active - {jobs[n].request.jobId} else active;
    assert forall m: nat :: On(fewer, connection, m) <==> On(jobs, connection, m) && m != n;
    forall x ensures x in left <==> InUse(waiting, fewer, connection, x) {
      assert x in active <==> InUse(waiting, jobs, connection, x);
      if m: nat :| On(jobs, connection, m) && jobs[m].request.jobId == x {
        assert m != n ==> On(fewer, connection, m);
      }
    }
  }

  lemma NoneInUse(jobs: map<nat, Job>, connection: nat)
    requires forall n :: n in jobs ==> jobs[n].connection < connection
    ensures Accounted({}, None, jobs, connection)
  {
    assert forall n: nat :: !On(jobs, connection, n);
  }

  lemma SlotsReceive(a: State, r: Request)
    requires Slots(a) && a.loop.Idle?
    ensures Slots(AfterReceive(a, r))
  {
    if Admissible(a, r.jobId) { SlotTaken(a.active, Undeparted(a), a.connection, r.jobId); }
  }

  /** A new connection starts without a job of its own. */
  lemma SlotsReset(a: State, b: State)
    requires Slots(a) && b.loop.Idle? && b.active == {} && b.connection == a.connection + 1 && b.starts == a.starts
    requires (b.executing == a.executing && b.finishing == a.finishing) || b.executing == b.finishing == map[]
    ensures Slots(b)
  {
    NoneInUse(Undeparted(b), b.connection);
  }

  lemma SlotsBegin(a: State, now: int, fault: Fault, b: State)
    requires Slots(a) && Next(a, Begin(now, fault), b)
    ensures Slots(b)
  {
    var reply :| b == AfterBegin(a, b.disk, reply);
    SlotsAnswered(a, b, reply);
  }

  lemma SlotsAnswered(a: State, b: State, reply: BeginReply)
    requires Slots(a) && a.loop.Holding? && b == AfterBegin(a, b.disk, reply)
    ensures Slots(b)
  {
    if !reply.Admitted? {
      SlotRefused(a.active, Undeparted(a), a.connection, a.loop.request.jobId);
    }
  }

  lemma SlotsLaunch(a: State)
    requires Slots(a) && a.loop.Written?
    ensures Slots(AfterLaunch(a))
  {
    SlotStarted(a.active, Undeparted(a), a.connection, a.starts, a.loop.request);
    assert Undeparted(AfterLaunch(a)) == Undeparted(a)[a.starts := Job(a.loop.request, a.connection)];
  }

  lemma SlotsFinish(a: State, n: nat, b: State)
    requires Slots(a) && n in a.executing && b.executing == a.executing - {n}
    requires b.finishing == a.finishing[n := a.executing[n]] && b.active == a.active && b.loop == a.loop
    requires b.connection == a.connection && b.starts == a.starts
    ensures Slots(b)
  {
    assert Undeparted(b) == Undeparted(a);
  }

  lemma SlotsDepart(a: State, n: nat)
    requires Slots(a) && n in a.finishing
    ensures Slots(AfterDepart(a, n))
  {
    SlotFreed(a.active, Waiting(a.loop), Undeparted(a), a.connection, n);
    assert Undeparted(AfterDepart(a, n)) == Undeparted(a) - {n};
  }

  lemma SlotsNext(a: State, step: Step, b: State)
    requires Slots(a) && Next(a, step, b)
    ensures Slots(b)
  {
    match step
    case Receive(r) => SlotsReceive(a, r);
    case Begin(now, fault) => SlotsBegin(a, now, fault, b);
    case Launch => SlotsLaunch(a);
    case Finish(n, e, now, fault) => FinishFrame(a, n, e, now, fault, b); SlotsFinish(a, n, b);
    case Depart(n) => SlotsDepart(a, n);
    case Reconnect(begun) => SlotsReset(a, AfterReconnect(a, begun));
    case Crash => SlotsReset(a, AfterCrash(a));
  }

  /** Over every run: a connection never has more than four jobs, no two with the same ID, and no slot is lost.
      The slots taken are exactly those of the request in the loop and of the executions the connection has
      started and that have not departed, however they were refused, replayed, failed or cancelled. */
  lemma {:induction false} SlotsAreConserved(states: seq<State>, steps: seq<Step>, i: nat)
    requires IsRun(states, steps) && i < |states|
    ensures Slots(states[i])
  {
    if i == 0 {
      NoneInUse(map[], 0);
      assert Undeparted(INITIAL) == map[];
    } else {
      SlotsAreConserved(states, steps, i - 1);
      assert StepAt(states, steps, i - 1);
      SlotsNext(states[i - 1], steps[i - 1], states[i]);
    }
  }

  /** Over every run: a request with an unsafe ID is told so. Another one is taken if and only if no job of
      its ID is under way on the connection and fewer than four are; otherwise it is dropped without a word. */
  lemma TakenExactlyWhen(states: seq<State>, steps: seq<Step>, i: nat, r: Request)
    requires IsRun(states, steps) && i < |steps| && steps[i] == Receive(r)
    ensures var a, b := states[i], states[i + 1];
      && (!SafeJobId(r.jobId) ==> Replied(a, b, r.jobId, Failure(InvalidOperationId)) && b == a.(sent := b.sent))
      && (SafeJobId(r.jobId) ==>
            if !InUse(None, Undeparted(a), a.connection, r.jobId) && |a.active| < 4
            then b == a.(loop := Holding(r), active := a.active + {r.jobId})
            else b == a)
  {
    SlotsAreConserved(states, steps, i);
    assert StepAt(states, steps, i);
    assert r.jobId in states[i].active <==> InUse(None, Undeparted(states[i]), states[i].connection, r.jobId);
  }

  // ---------------------------------------------------------------------------------------------
  // When the same ID may run again
  // ---------------------------------------------------------------------------------------------

  /** The last thing the log says of the ID is that its completed entry was evicted. */
  predicate LastEvicted(log: seq<Event>, id: JobId) {
    exists k :: 0 <= k < |log| && log[k].Evicted? && id in log[k].ids && Wrote(id) !in log[k + 1..]
  }

  lemma LastEvictedExtended(log: seq<Event>, last: Event, id: JobId)
    ensures LastEvicted(log + [last], id) <==>
              (last.Evicted? && id in last.ids) || (LastEvicted(log, id) && last != Wrote(id))
  {
    var n := |log|;
    var all := log + [last];
    if last.Evicted? && id in last.ids {
      assert all[n] == last && all[n + 1..] == [];
    } else {
      forall k | 0 <= k < n
        ensures all[k] == log[k] && (Wrote(id) !in all[k + 1..] <==> Wrote(id) !in log[k + 1..] && last != Wrote(id))
      {
        assert all[k + 1..] == log[k + 1..] + [last];
      }
      if LastEvicted(log, id) && last != Wrote(id) {
        var k :| 0 <= k < n && log[k].Evicted? && id in log[k].ids && Wrote(id) !in log[k + 1..];
        assert all[k] == log[k];
      }
    }
  }

  lemma {:induction false} UnheardMeansEvicted(log: seq<Event>, id: JobId)
    requires LifeOf(log, id) != Broken && Started(id) in log
    ensures LifeOf(log, id) == Unheard <==> LastEvicted(log, id)
  {
    var n := |log| - 1;
    var rest, last := log[..n], log[n];
    assert log == rest + [last];
    PrefixUnbroken(log, id, n);
    LastEvictedExtended(rest, last, id);
    if Started(id) in rest {
      UnheardMeansEvicted(rest, id);
    } else {
      assert last == Started(id);
      if LastEvicted(rest, id) {
        var k :| 0 <= k < n && rest[k].Evicted? && id in rest[k].ids && Wrote(id) !in rest[k + 1..];
        FirstStart(rest, id, k);
      }
    }
  }

  /** Nothing is evicted before it has started. */
  lemma {:induction false} FirstStart(log: seq<Event>, id: JobId, k: nat)
    requires LifeOf(log, id) != Broken && Started(id) !in log
    requires k < |log|
    ensures log[k].Evicted? ==> id !in log[k].ids
  {
    NotStarted(log, id, k);
    LifeAt(log, id, k);
  }

  lemma {:induction false} NotStarted(log: seq<Event>, id: JobId, k: nat)
    requires LifeOf(log, id) != Broken && Started(id) !in log && k <= |log|
    ensures LifeOf(log[..k], id) == Unheard || LifeOf(log[..k], id) == InLedger
  {
    PrefixUnbroken(log, id, k);
    if k > 0 {
      NotStarted(log, id, k - 1);
      LifeAt(log, id, k - 1);
    }
  }

  /** The exact limit of "never twice": a job that has run, asked for again on a healthy file system that
      is not full of unresolved work, is admitted again if and only if its completed entry was evicted. */
  lemma RunsAgainExactlyAfterEviction(states: seq<State>, steps: seq<Step>, j: nat, r: Request)
    requires IsRun(states, steps) && j < |steps|
    requires steps[j].Begin? && steps[j].fault.Healthy? && states[j].loop == Holding(r)
    requires |Unresolved(states[j].disk)| < MAX_JOBS && Started(r.jobId) in states[j].log
    ensures states[j + 1].loop == Written(r) <==> LastEvicted(states[j].log, r.jobId)
  {
    var a, b := states[j], states[j + 1];
    InvRun(states, steps, j);
    assert StepAt(states, steps, j);
    assert LogAgrees(a, r.jobId);
    UnheardMeansEvicted(a.log, r.jobId);
    var reply :| BeginStep(a.disk, r.jobId, Sha256(r.content), steps[j].now, steps[j].fault, b.disk, reply)
                 && b == AfterBegin(a, b.disk, reply);
    AdmittedExactlyWhenAbsent(a.disk, r.jobId, Sha256(r.content), steps[j].now, b.disk, reply);
  }

  // ---------------------------------------------------------------------------------------------
  // Executions whose stream was lost
  // ---------------------------------------------------------------------------------------------

  /** A number is given to one execution only, and the loss of its stream is remembered while it runs. */
  lemma ExecutionStep(a: State, step: Step, b: State, n: nat)
    requires Next(a, step, b) && n in b.executing && n < a.starts
    ensures n in a.executing && b.executing[n] == a.executing[n]
    ensures n in a.lostAt ==> n in b.lostAt && b.lostAt[n] == a.lostAt[n]
  {
    match step
    case Finish(m, e, now, fault) => FinishFrame(a, m, e, now, fault, b);
    case Launch =>
    case Reconnect(_) =>
    case Crash =>
    case _ => StepFrame(a, step, b);
  }

  lemma {:induction false} StillExecuting(states: seq<State>, steps: seq<Step>, i: nat, j: nat, n: nat)
    requires IsRun(states, steps) && i <= j < |states| && n < states[i].starts
    ensures states[i].starts <= states[j].starts && states[i].connection <= states[j].connection
    ensures n in states[j].executing ==>
              && n in states[i].executing && states[j].executing[n] == states[i].executing[n]
              && (n in states[i].lostAt ==> n in states[j].lostAt && states[j].lostAt[n] == states[i].lostAt[n])
    decreases j - i
  {
    if i < j {
      StillExecuting(states, steps, i, j - 1, n);
      assert StepAt(states, steps, j - 1);
      StepFrame(states[j - 1], steps[j - 1], states[j]);
      if n in states[j].executing { ExecutionStep(states[j - 1], steps[j - 1], states[j], n); }
    }
  }

  lemma LosesStream(a: State, begun: map<nat, nat>, b: State, n: nat)
    requires Inv(a) && Next(a, Reconnect(begun), b) && n in a.executing
    ensures n < b.starts && n in b.executing && b.executing[n] == a.executing[n] && n in b.lostAt
    ensures a.executing[n].connection == a.connection ==> b.lostAt[n] == BegunBy(begun, n)
  {
  }

  /** An execution that is alive when its agent reconnects ends cancelled, whenever it ends: it is recorded
      and reported so, and from the attempts it had begun when its stream was lost no further command runs. */
  lemma LostStreamCancels(states: seq<State>, steps: seq<Step>, i: nat, j: nat, n: nat)
    requires IsRun(states, steps) && i < j < |steps| && steps[i].Reconnect? && n in states[i].executing
    requires steps[j].Finish? && steps[j].n == n
    ensures n in states[j].executing && states[j].executing[n] == states[i].executing[n]
    ensures var c := states[i].executing[n].request.content; var x := Executor.Run(c, steps[j].environment);
      && Executor.ReportedRun(c, steps[j].environment).status == Cancelled
      && (states[i].executing[n].connection == states[i].connection ==>
            forall k :: BegunBy(steps[i].begun, n) <= k < |x.trace| ==> !x.trace[k].ran)
    ensures var r := states[i].executing[n].request; var told := Executor.ReportedRun(r.content, steps[j].environment);
      if steps[j].fault.Healthy?
      then Replied(states[j], states[j + 1], r.jobId, told)
           && r.jobId in states[j + 1].disk && states[j + 1].disk[r.jobId].result == Some(told)
      else Replied(states[j], states[j + 1], r.jobId, Failure(DurableStateUnavailable))
  {
    var c := states[i].executing[n].request.content;
    InvRun(states, steps, i);
    InvRun(states, steps, j);
    assert StepAt(states, steps, i) && StepAt(states, steps, j);
    LosesStream(states[i], steps[i].begun, states[i + 1], n);
    StillExecuting(states, steps, i + 1, j, n);
    Executor.CancelledFromReports(c, steps[j].environment, states[j].lostAt[n]);
    FinishTells(states[j], n, steps[j].environment, steps[j].now, steps[j].fault, states[j + 1]);
  }

  /** The end of an execution records its result and reports that very result; if it cannot be recorded, the
      entry stays unresolved and the report says so. */
  lemma FinishTells(a: State, n: nat, e: Executor.Environment, now: int, fault: Fault, b: State)
    requires Inv(a) && Next(a, Finish(n, e, now, fault), b) && n in a.executing
    ensures var r := a.executing[n].request; var told := Executor.ReportedRun(r.content, e);
      if fault.Healthy?
      then Replied(a, b, r.jobId, told) && b.disk == a.disk[r.jobId := Entry(Sha256(r.content), true, Some(told), now)]
      else Replied(a, b, r.jobId, Failure(DurableStateUnavailable)) && b.disk == a.disk
    ensures n !in b.executing && b.active == a.active
  {
    var ok := FinishedDisk(a, n, e, now, fault, b);
  }

  /** Execution `n` was launched at step `l`, a stream was lost at a later step `r`, and since the launch the
      execution has not finished and the process has not crashed. */
  predicate Outlives(states: seq<State>, steps: seq<Step>, j: nat, n: nat, l: nat, r: nat)
    requires |states| == |steps| + 1 && j < |states|
  {
    && l < r < j && steps[l] == Launch && states[l].starts == n && steps[r].Reconnect?
    && Undisturbed(steps, l, j, n)
  }

  predicate Undisturbed(steps: seq<Step>, l: nat, j: nat, n: nat)
    requires j <= |steps|
  {
    forall k {:trigger steps[k]} :: l < k < j ==> !steps[k].Crash? && !(steps[k].Finish? && steps[k].n == n)
  }

  /** Where an execution was launched, and on which connection. */
  lemma {:induction false} LaunchOf(states: seq<State>, steps: seq<Step>, j: nat, n: nat) returns (l: nat)
    requires IsRun(states, steps) && j < |states| && n in states[j].executing
    ensures l < j && steps[l] == Launch && states[l].starts == n && Undisturbed(steps, l, j, n)
    ensures states[j].executing[n].connection == states[l].connection
    decreases j
  {
    assert j > 0;
    assert StepAt(states, steps, j - 1);
    if n in states[j - 1].executing && !(steps[j - 1].Launch? && states[j - 1].starts == n) {
      l := LaunchOf(states, steps, j - 1, n);
      AliveAcross(states[j - 1], steps[j - 1], states[j], n);
      if n < states[j - 1].starts { ExecutionStep(states[j - 1], steps[j - 1], states[j], n); }
      InvRun(states, steps, j - 1);
    } else {
      NewlyExecuting(states[j - 1], steps[j - 1], states[j], n);
      l := j - 1;
    }
  }

  lemma AliveAcross(a: State, step: Step, b: State, n: nat)
    requires Next(a, step, b) && n in a.executing
    ensures n in b.executing <==> !step.Crash? && !(step.Finish? && step.n == n)
  {
    match step
    case Finish(m, e, now, fault) => FinishFrame(a, m, e, now, fault, b);
    case Launch =>
    case Crash =>
    case _ => StepFrame(a, step, b);
  }

  lemma NewlyExecuting(a: State, step: Step, b: State, n: nat)
    requires Next(a, step, b) && n in b.executing && (n in a.executing ==> step.Launch? && a.starts == n)
    ensures step.Launch? && a.starts == n && b.executing[n].connection == a.connection
  {
    match step
    case Finish(m, e, now, fault) => FinishFrame(a, m, e, now, fault, b);
    case Launch =>
    case Crash =>
    case _ => StepFrame(a, step, b);
  }

  /** The connection changes only by a reconnect or a crash. */
  lemma {:induction false} ConnectionMoved(states: seq<State>, steps: seq<Step>, l: nat, j: nat) returns (r: nat)
    requires IsRun(states, steps) && l <= j < |states| && states[l].connection != states[j].connection
    ensures l <= r < j && (steps[r].Reconnect? || steps[r].Crash?)
    decreases j - l
  {
    if steps[j - 1].Reconnect? || steps[j - 1].Crash? {
      r := j - 1;
    } else {
      KeepsConnection(states, steps, j - 1);
      r := ConnectionMoved(states, steps, l, j - 1);
    }
  }

  lemma KeepsConnection(states: seq<State>, steps: seq<Step>, k: nat)
    requires IsRun(states, steps) && k < |steps| && !steps[k].Reconnect? && !steps[k].Crash?
    ensures states[k + 1].connection == states[k].connection
  {
    assert StepAt(states, steps, k);
    StepFrame(states[k], steps[k], states[k + 1]);
  }

  lemma {:induction false} StaysAlive(states: seq<State>, steps: seq<Step>, l: nat, j: nat, n: nat)
    requires IsRun(states, steps) && l < j < |states| && steps[l] == Launch && states[l].starts == n
    requires Undisturbed(steps, l, j, n)
    ensures n in states[j].executing && states[j].executing[n].connection == states[l].connection
    ensures n < states[j].starts
    decreases j
  {
    assert StepAt(states, steps, j - 1);
    if l < j - 1 {
      StaysAlive(states, steps, l, j - 1, n);
      AliveAcross(states[j - 1], steps[j - 1], states[j], n);
      ExecutionStep(states[j - 1], steps[j - 1], states[j], n);
      StepFrame(states[j - 1], steps[j - 1], states[j]);
    }
  }

  lemma {:induction false} ConnectionGrows(states: seq<State>, steps: seq<Step>, i: nat, j: nat)
    requires IsRun(states, steps) && i <= j < |states|
    ensures states[i].connection <= states[j].connection
    decreases j - i
  {
    if i < j {
      ConnectionGrows(states, steps, i, j - 1);
      assert StepAt(states, steps, j - 1);
      StepFrame(states[j - 1], steps[j - 1], states[j]);
    }
  }

  /** An execution runs beside a connection later than its own if and only if a stream was lost after its
      launch and neither its end nor a crash has come since the launch. */
  lemma BesideLaterConnectionExactlyWhen(states: seq<State>, steps: seq<Step>, j: nat, n: nat)
    requires IsRun(states, steps) && j < |states|
    ensures (n in states[j].executing && states[j].executing[n].connection < states[j].connection)
            <==> exists l: nat, r: nat :: Outlives(states, steps, j, n, l, r)
  {
    if n in states[j].executing && states[j].executing[n].connection < states[j].connection {
      var l := LaunchOf(states, steps, j, n);
      var r := ConnectionMoved(states, steps, l, j);
      assert Outlives(states, steps, j, n, l, r);
    }
    if l: nat, r: nat :| Outlives(states, steps, j, n, l, r) {
      StaysAlive(states, steps, l, j, n);
      ConnectionGrows(states, steps, l, r);
      assert StepAt(states, steps, r);
      ConnectionGrows(states, steps, r + 1, j);
    }
  }

  // ---------------------------------------------------------------------------------------------
  // A run in which an execution outlives its stream
  // ---------------------------------------------------------------------------------------------

  /** The agent after it took a request it does not know, wrote it to its ledger, and started it. */
  function Launched(a: State, r: Request, disk: Jobs): State {
    a.(disk := disk,
       active := a.active + {r.jobId},
       executing := a.executing[a.starts := Job(r, a.connection)],
       starts := a.starts + 1,
       log := a.log + [Evicted(a.disk.Keys - disk.Keys), Wrote(r.jobId)] + [Started(r.jobId)])
  }

  /** An agent whose ledger is not filled by unresolved work starts a request that it does not know. */
  lemma UnknownLaunches(a: State, r: Request, now: int) returns (received: State, begun: State)
    requires a.loop.Idle? && Admissible(a, r.jobId) && r.jobId !in a.disk && |Unresolved(a.disk)| < MAX_JOBS
    ensures Next(a, Receive(r), received)
    ensures Next(received, Begin(now, Healthy), begun)
    ensures Next(begun, Launch, Launched(a, r, begun.disk))
    ensures BeginStep(a.disk, r.jobId, Sha256(r.content), now, Healthy, begun.disk, Admitted)
    ensures |a.disk| < MAX_JOBS ==> begun.disk == a.disk[r.jobId := InFlight(Sha256(r.content), now)]
  {
    received := AfterReceive(a, r);
    var disk := AdmitsUnknown(a.disk, r.jobId, Sha256(r.content), now);
    begun := AfterBegin(received, disk, Admitted);
    assert AfterLaunch(begun) == Launched(a, r, disk);
  }

  /** For every request with a safe ID there is a run in which it is still being executed when the agent has
      connected again. */
  lemma ExecutionOutlivesItsStream(r: Request) returns (states: seq<State>, steps: seq<Step>)
    requires SafeJobId(r.jobId)
    ensures IsRun(states, steps)
    ensures var a := states[|states| - 1];
      0 in a.executing && a.executing[0].request == r && a.executing[0].connection < a.connection
  {
    var received, begun := UnknownLaunches(INITIAL, r, 0);
    var running := Launched(INITIAL, r, begun.disk);
    var lost := AfterReconnect(running, map[]);
    assert Next(running, Reconnect(map[]), lost);
    states, steps := FourSteps(INITIAL, Receive(r), received, Begin(0, Healthy), begun, Launch, running,
                               Reconnect(map[]), lost);
  }

  lemma FourSteps(a: State, p: Step, b: State, q: Step, c: State, s: Step, d: State, t: Step, e: State)
    returns (states: seq<State>, steps: seq<Step>)
    requires a == INITIAL && Next(a, p, b) && Next(b, q, c) && Next(c, s, d) && Next(d, t, e)
    ensures IsRun(states, steps) && states[|states| - 1] == e
  {
    states, steps := [a, b, c, d, e], [p, q, s, t];
    assert StepAt(states, steps, 0) && StepAt(states, steps, 1) && StepAt(states, steps, 2) && StepAt(states, steps, 3);
  }

  // ---------------------------------------------------------------------------------------------
  // One execution from its request to its end
  // ---------------------------------------------------------------------------------------------

  /** Nothing is under way, and every operation in the ledger is resolved. */
  predicate Resting(a: State) {
    && a.loop.Idle? && a.active == {} && a.executing == map[] && a.lostAt == map[] && a.finishing == map[]
    && Unresolved(a.disk) == {}
  }

  /** A resting agent that launched a request can finish it, under any context, and rests again. */
  lemma LaunchedEnds(a: State, r: Request, disk: Jobs, now: int, e: Executor.Environment)
    returns (finished: State, g: State)
    requires Resting(a) && Executor.Monotone(e) && |disk| <= MAX_JOBS
    requires r.jobId in disk && Unresolved(disk) <= {r.jobId}
    ensures Next(Launched(a, r, disk), Finish(a.starts, e, now, Healthy), finished)
    ensures Next(finished, Depart(a.starts), g)
    ensures Resting(g) && Launched(a, r, disk).log <= g.log
    ensures g.disk == disk[r.jobId := Done(Sha256(r.content), Executor.ReportedRun(r.content, e), now)]
  {
    var running := Launched(a, r, disk);
    var result := Executor.ReportedRun(r.content, e);
    var after := disk[r.jobId := Done(Sha256(r.content), result, now)];
    CompletesAdmitted(disk, r.jobId, Sha256(r.content), result, now);
    finished := AfterFinish(running, a.starts, e, after, true);
    g := AfterDepart(finished, a.starts);
    assert running.executing == map[a.starts := Job(r, a.connection)];
    forall id | id in after ensures after[id].completed {
      assert id != r.jobId ==> id !in Unresolved(disk);
    }
  }

  // ---------------------------------------------------------------------------------------------
  // The transport as the program writes it
  // ---------------------------------------------------------------------------------------------

  /** The process: its ledger file, the active map of its present connection, and its executions. */
  class Runner {
    const store: Store
    var connection: nat
    var active: set<JobId>
    var executing: map<nat, Job>
    var lostAt: map<nat, nat>
    var finishing: map<nat, Job>
    var starts: nat
    ghost var log: seq<Event>
    ghost var sent: seq<Sent>
    ghost var finished: seq<Finished>

    /** The transition system's view of the process, with its receive loop at `loop`. */
    ghost function View(loop: Loop): State
      reads this, store
    {
      State(store.disk, connection, active, loop, executing, lostAt, finishing, starts, log, sent, finished)
    }

    constructor ()
      ensures View(Idle) == INITIAL && fresh(store)
    {
      store := new Store();
      connection, active, executing, lostAt, finishing, starts := 0, {}, map[], map[], map[], 0;
      log, sent, finished := [], [], [];
    }

    method Send(id: JobId, result: JobResult)
      modifies this`sent
      ensures sent == old(sent) + [Sent(id, result)]
    {
      sent := sent + [Sent(id, result)];
    }

    method AdmitJob(id: JobId) returns (admitted: bool)
      modifies this`active
      ensures admitted <==> id !in old(active) && |old(active)| < MAX_ACTIVE
      ensures active == if admitted then old(active) + {id} else old(active)
    {
      if id in active || |active| >= MAX_ACTIVE { return false; }
      active := active + {id};
      admitted := true;
    }

    /** Give up the slot of a request that starts nothing, and answer it. */
    method Refuse(id: JobId, result: JobResult)
      modifies this`active, this`sent
      ensures View(Idle) == Refused(old(View(Idle)), id, result)
    {
      active := active - {id};
      Send(id, result);
    }

    /** Start the execution of a request the ledger has just admitted. */
    method Start(r: Request, ghost known: set<JobId>)
      modifies this
      ensures View(Idle) == old(View(Idle)).(
                executing := old(executing)[old(starts) := Job(r, connection)],
                starts := old(starts) + 1,
                log := old(log) + [Evicted(known - store.disk.Keys), Wrote(r.jobId)] + [Started(r.jobId)])
    {
      log := log + [Evicted(known - store.disk.Keys), Wrote(r.jobId)] + [Started(r.jobId)];
      executing := executing[starts := Job(r, connection)];
      starts := starts + 1;
    }

    /** The receive loop's second half, for a request that holds a slot: the steps Begin and Launch. */
    method BeginAndLaunch(r: Request, now: int, fault: Fault) returns (reply: BeginReply)
      modifies this, store
      ensures BeginStep(old(store.disk), r.jobId, Sha256(r.content), now, fault, store.disk, reply)
      ensures var begun := AfterBegin(old(View(Holding(r))), store.disk, reply);
        View(Idle) == if begun.loop.Written? then AfterLaunch(begun) else begun
    {
      var fingerprint := Sha256(r.content);
      ghost var known := store.disk.Keys;
      reply := store.Begin(r.jobId, fingerprint, now, fault);
      match reply
      case Unavailable =>
        Refuse(r.jobId, Failure(DurableStateUnavailable));
      case Existing(entry) =>
        if entry.fingerprint != fingerprint {
          Refuse(r.jobId, Failure(OperationIdConflict));
        } else if entry.completed && entry.result.Some? {
          Refuse(r.jobId, entry.result.value);
        } else {
          Refuse(r.jobId, Failure(RecoveryRequired));
        }
      case Admitted =>
        Start(r, known);
    }

    /** One release request through the receive loop: the steps Receive, Begin and Launch in a row. */
    method StartKubernetes(r: Request, now: int, fault: Fault) returns (ghost reply: BeginReply)
      modifies this, store
      ensures var received := AfterReceive(old(View(Idle)), r);
        if received.loop.Holding? then
          var begun := AfterBegin(received, store.disk, reply);
          && BeginStep(old(store.disk), r.jobId, Sha256(r.content), now, fault, store.disk, reply)
          && View(Idle) == if begun.loop.Written? then AfterLaunch(begun) else begun
        else View(Idle) == received
    {
      reply := Unavailable;
      if !SafeJobId(r.jobId) {
        Send(r.jobId, Failure(InvalidOperationId));
        return;
      }
      var admitted := AdmitJob(r.jobId);
      if !admitted { return; }
      assert View(Holding(r)) == AfterReceive(old(View(Idle)), r);
      reply := BeginAndLaunch(r, now, fault);
    }

    /** Run the external steps and report "cancelled" if the context was cancelled by their end. */
    method RunToEnd(c: Content, e: Executor.Environment) returns (result: JobResult)
      ensures result == Executor.ReportedRun(c, e)
    {
      var session := new Executor.Session(e);
      result := session.Execute(c);
      assert Executor.Execution(result, session.trace).result == Executor.Run(c, e).result;
      if e.cancelledAtEnd { result := result.(status := Cancelled, code := CancelledCode); }
    }

    /** The end of one execution: record the result, report it, and free the slot of its connection. */
    method ExecuteKubernetes(n: nat, e: Executor.Environment, now: int, fault: Fault) returns (ok: bool)
      requires n in executing && n !in finishing && MayMeet(View(Idle), n, e)
      modifies this, store
      ensures CompleteStep(old(store.disk), old(executing)[n].request.jobId, Sha256(old(executing)[n].request.content),
                           Executor.ReportedRun(old(executing)[n].request.content, e), now, fault, store.disk, ok)
      ensures View(Idle) == AfterDepart(AfterFinish(old(View(Idle)), n, e, store.disk, ok), n)
    {
      var job := executing[n];
      var r := job.request;
      var result := RunToEnd(r.content, e);
      ghost var known := store.disk.Keys;
      ok := store.Complete(r.jobId, Sha256(r.content), result, now, fault);
      if !ok { result := Failure(DurableStateUnavailable); }
      Conclude(n, e, result, ok, known);
    }

    method Conclude(n: nat, ghost e: Executor.Environment, result: JobResult, ok: bool, ghost known: set<JobId>)
      requires n in executing && n !in finishing
      modifies this
      ensures var job := old(executing)[n]; var id := job.request.jobId;
        View(Idle) == old(View(Idle)).(
          executing := old(executing) - {n},
          lostAt := old(lostAt) - {n},
          log := old(log) + (if ok then [Recorded(id), Evicted(known + {id} - store.disk.Keys)] else []),
          sent := old(sent) + [Sent(id, result)],
          finished := old(finished) + [Finished(job.request, e, job.connection == connection)],
          active := if job.connection == connection then old(active) - {id} else old(active))
      ensures old(finishing)[n := old(executing)[n]] - {n} == finishing
    {
      var job := executing[n];
      var id := job.request.jobId;
      log := log + if ok then [Recorded(id), Evicted(known + {id} - store.disk.Keys)] else [];
      Send(id, result);
      finished := finished + [Finished(job.request, e, job.connection == connection)];
      executing := executing - {n};
      lostAt := lostAt - {n};
      if job.connection == connection { active := active - {id}; }
      assert finishing[n := job] - {n} == finishing;
    }

    /** The stream ended: the context of every execution is cancelled, no later attempt of theirs gets
        through, and the next connection starts with an empty active map. */
    method Reconnect(begun: map<nat, nat>)
      modifies this
      ensures View(Idle) == AfterReconnect(old(View(Idle)), begun)
      ensures forall n :: n in executing ==> n in lostAt
    {
      lostAt := map n | n in executing :: if n in lostAt then lostAt[n] else BegunBy(begun, n);
      connection := connection + 1;
      active := {};
    }
  }
}
