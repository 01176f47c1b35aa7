/** What every run of the gateway keeps, what each of its operations does, and a run that shows the limit. */
module Gateway {
  import opened Wire
  import opened GatewayJob
  import opened GatewaySteps
  import FifoMemory

  // ---------------------------------------------------------------------------------------------
  // Theorems over every interleaving
  // ---------------------------------------------------------------------------------------------

  /** The state after these steps, if each of them could be taken. */
  function Play(limits: Limits, steps: seq<Step>): Option<State> {
    if steps == [] then Some(Initial(limits))
    else
      var before := Play(limits, steps[..|steps| - 1]);
      var last := steps[|steps| - 1];
      if before.Some? && CanStep(before.value, last) then Some(Apply(before.value, last)) else None
  }

  lemma {:induction false} PlayInv(limits: Limits, steps: seq<Step>)
    requires limits.maxCompleted > 0 && limits.maxInflight > 0 && Play(limits, steps).Some?
    ensures Inv(Play(limits, steps).value) && Play(limits, steps).value.limits == limits
  {
    if steps == [] {
      assert forall a :: Inflight(Initial(limits), a) == {};
    } else {
      var before := Play(limits, steps[..|steps| - 1]).value;
      PlayInv(limits, steps[..|steps| - 1]);
      ApplyInv(before, steps[|steps| - 1]);
    }
  }

  /** Whatever agents send and however tasks interleave, a consumer receives at most one terminal frame,
      as its last, and the agent's own frames in strictly increasing order. The whole stream is strictly
      increasing exactly if no later frame overtook the gateway's closing failure, and it is 1, 2, 3, ...
      if no put on this job ever found the queue full. */
  lemma ConsumerStream(limits: Limits, steps: seq<Step>, h: nat)
    requires limits.maxCompleted > 0 && limits.maxInflight > 0 && Play(limits, steps).Some?
    requires h < |Play(limits, steps).value.states|
    ensures var j := Play(limits, steps).value.states[h];
      && EndsAtTerminal(j.delivered)
      && (|j.delivered| > 0 ==> StrictlyIncreasing(j.delivered[..|j.delivered| - 1]))
      && (StrictlyIncreasing(j.delivered) <==> !FailureCrossed(j))
      && (!j.dropped ==> Contiguous(j.delivered, false))
      && (!j.waited ==> Contiguous(j.delivered, true))
  {
    var s := Play(limits, steps).value;
    PlayInv(limits, steps);
    assert JobPlaced(s, s.states[h]);
    ConsumerReceives(s.states[h], s.clock);
  }

  /** No agent ever has more jobs than its limit, and no session is registered for two agents. */
  lemma CapacityHolds(limits: Limits, steps: seq<Step>, a: nat, b: nat)
    requires limits.maxCompleted > 0 && limits.maxInflight > 0 && Play(limits, steps).Some?
    ensures var s := Play(limits, steps).value;
      && |Inflight(s, a)| <= limits.maxInflight
      && (a in s.sessions && b in s.sessions && a != b ==> s.sessions[a] != s.sessions[b])
  {
    PlayInv(limits, steps);
  }

  /** Once the disconnect of a session has worked off its list, no job opened on that session is left
      hanging: its end is queued, taken, or being put by the disconnect of a later session. */
  lemma NoJobLeftHanging(limits: Limits, steps: seq<Step>, token: nat, id: JobId)
    requires limits.maxCompleted > 0 && limits.maxInflight > 0 && Play(limits, steps).Some?
    requires var s := Play(limits, steps).value;
      token in s.failing && s.failing[token] == [] && id in s.jobs
    ensures var s := Play(limits, steps).value;
      s.jobs[id] < |s.states| && (s.states[s.jobs[id]].session == token ==> EndPending(s.states[s.jobs[id]]))
  {
    var s := Play(limits, steps).value;
    PlayInv(limits, steps);
    assert Listed(s, id) && FailerSound(s, token);
  }

  // ---------------------------------------------------------------------------------------------
  // What each operation does, in every reachable state
  // ---------------------------------------------------------------------------------------------

  /** The agent has room for one more job. */
  predicate HasRoom(s: State, agent: nat) {
    |set id | id in s.jobs && s.jobs[id] < |s.states| && s.states[s.jobs[id]].agent == agent| < s.limits.maxInflight
  }

  /** A job is opened if and only if its ID is safe and not listed, was not used before unless reuse is
      allowed, and its agent is connected and has room. A refusal names the first of these that fails. */
  lemma OpensExactlyWhen(s: State, agent: nat, id: JobId, reuse: bool)
    requires Inv(s)
    ensures var r := OpenCheck(s, agent, id, reuse);
      && (r.Opened? <==> && SafeJobId(id) && id !in s.jobs && (id in s.completed ==> reuse)
                         && agent in s.sessions && HasRoom(s, agent))
      && (r == InvalidId <==> !SafeJobId(id))
      && (r == AlreadyActive <==> SafeJobId(id) && id in s.jobs)
      && (r == AlreadyUsed <==> SafeJobId(id) && id !in s.jobs && id in s.completed && !reuse)
      && (r == NotConnected <==> && SafeJobId(id) && id !in s.jobs && (id in s.completed ==> reuse)
                                 && agent !in s.sessions)
  {
  }

  /** A refused job changes nothing. An opened one is listed on its agent's present session, expects number 1,
      and has received nothing; all other jobs stay as they are. */
  lemma OpenedJobIsNew(s: State, agent: nat, id: JobId, kind: Kind, reuse: bool)
    requires Inv(s)
    ensures var r := OpenCheck(s, agent, id, reuse); var t := Apply(s, OpenJob(agent, id, kind, reuse));
      if !r.Opened? then t == s
      else
        && r.handle == |s.states| && t == s.(jobs := t.jobs, states := t.states)
        && t.jobs.Keys == s.jobs.Keys + {id} && t.jobs[id] == r.handle
        && (forall other :: other in s.jobs ==> t.jobs[other] == s.jobs[other])
        && |t.states| == |s.states| + 1 && t.states[..|s.states|] == s.states
        && var j := t.states[r.handle];
        && j.agent == agent && agent in s.sessions && j.session == s.sessions[agent] && j.kind == kind
        && j.nextSequence == 1 && j.phase == Phase.Open && !j.cancelSent && Stream(j) == [] && j.putters == map[]
        && !j.waited && !j.dropped && j.crossings == {}
  {
  }

  /** The frame is at the end of the queue, or waits to get there because the queue is full. */
  predicate Entered(before: Job, after: Job, owner: Owner, f: Frame) {
    if |before.queue| < MAX_EVENTS
    then Stream(after) == Stream(before) + [f] && after.putters == before.putters
    else Stream(after) == Stream(before) && after.putters == before.putters[owner := f]
  }

  /** A frame for a job that is not listed, or for another agent's, is ignored. The expected number is
      counted, and the frame goes to the consumer as it is, so that a terminal one ends the job. Any other
      number becomes a failure that ends the job, with the number that was expected. */
  lemma AcceptsExactly(s: State, token: nat, id: JobId, sequence: nat, terminal: bool)
    requires Inv(s) && CanStep(s, Accept(token, id, sequence, terminal))
    ensures var t := Apply(s, Accept(token, id, sequence, terminal));
      if id !in s.jobs || s.states[s.jobs[id]].agent != s.agents[token] then t == s
      else
        var h := s.jobs[id]; var j := s.states[h];
        && t == s.(states := s.states[h := t.states[h]], clock := s.clock + 1)
        && if sequence == j.nextSequence
           then t.states[h].nextSequence == sequence + 1
                && Entered(j, t.states[h], Reader(token), Frame(FromAgent, sequence, terminal, s.clock))
           else t.states[h].nextSequence == j.nextSequence
                && Entered(j, t.states[h], Reader(token), Frame(OutOfOrder, j.nextSequence, true, s.clock))
  {
    if id in s.jobs { assert Listed(s, id); }
  }

  /** A disconnect fails the next job on its list: a terminal frame with the number the job expected. */
  lemma DisconnectFails(s: State, token: nat)
    requires Inv(s) && CanStep(s, FailNext(token))
    ensures var h := s.failing[token][0]; var t := Apply(s, FailNext(token));
      && t.states == s.states[h := t.states[h]] && t.jobs == s.jobs && t.sessions == s.sessions
      && t.failing == s.failing[token := s.failing[token][1..]]
      && t.states[h].nextSequence == s.states[h].nextSequence
      && Entered(s.states[h], t.states[h], Failer(token),
                 Frame(Disconnected, s.states[h].nextSequence, true, s.clock))
  {
  }

  /** A cancellation is on its way afterwards, from this call or an earlier one, if and only if the job is
      listed and was cancelled before or its agent is connected; and nothing else changes. */
  lemma CancelSentExactlyWhen(s: State, id: JobId)
    requires Inv(s) && CanStep(s, Cancel(id))
    ensures var t := Apply(s, Cancel(id));
      && t.jobs == s.jobs
      && ((id in t.jobs && t.states[t.jobs[id]].cancelSent) <==>
            id in s.jobs && (s.states[s.jobs[id]].cancelSent || s.states[s.jobs[id]].agent in s.sessions))
      && (t != s ==> id in s.jobs
                     && t == s.(states := s.states[s.jobs[id] := s.states[s.jobs[id]].(cancelSent := true)]))
  {
    if id in s.jobs { assert Listed(s, id); }
  }

  /** A job later on: what had entered its queue and what its consumer had received are still the beginning
      of what has by now. */
  predicate GoesOn(j: Job, k: Job) {
    Stream(j) <= Stream(k) && j.delivered <= k.delivered && k.agent == j.agent && k.kind == j.kind
  }

  lemma JobGoesOn(j: Job, owner: Owner, f: Frame, now: nat)
    ensures GoesOn(j, Put(j, owner, f)) && GoesOn(j, Put(Take(j, now), owner, f))
    ensures owner in j.putters ==> GoesOn(j, Wake(j, owner)) && GoesOn(j, CancelPut(j, owner))
    ensures |j.queue| > 0 ==> GoesOn(j, Deliver(j))
  {
    if |j.queue| > 0 { assert Stream(Deliver(j)) == Stream(j); }
  }

  lemma MovesGoOn(j: Job, owner: Owner, now: nat)
    ensures owner in j.putters ==> GoesOn(j, Wake(j, owner)) && GoesOn(j, CancelPut(j, owner))
    ensures owner.Failer? ==> GoesOn(j, FailJob(j, owner.token, now))
    ensures |j.queue| > 0 ==> GoesOn(j, Deliver(j))
  {
    JobGoesOn(j, owner, Frame(Disconnected, j.nextSequence, true, now), now);
  }

  lemma AcceptGoesOn(j: Job, token: nat, sequence: nat, terminal: bool, now: nat)
    ensures GoesOn(j, AcceptFrame(j, token, sequence, terminal, now))
  {
    JobGoesOn(j, Reader(token), Frame(OutOfOrder, j.nextSequence, true, now), now);
    JobGoesOn(j, Reader(token), Frame(FromAgent, sequence, terminal, now), now);
  }

  /** Nothing that has entered a job's queue is lost, changed, or reordered on its way to the consumer, and
      nothing the consumer has received is taken back, whatever a step does. */
  lemma StreamGoesOn(s: State, step: Step, h: nat)
    requires CanStep(s, step) && h < |s.states|
    ensures h < |Apply(s, step).states| && GoesOn(s.states[h], Apply(s, step).states[h])
  {
    match step
    case Accept(token, id, sequence, terminal) =>
      if id in s.jobs { AcceptGoesOn(s.states[s.jobs[id]], token, sequence, terminal, s.clock); }
    case WakePut(k, owner) => MovesGoOn(s.states[k], owner, s.clock);
    case EndReader(token, at) => if at.Some? { MovesGoOn(s.states[at.value], Reader(token), s.clock); }
    case FailNext(token) => MovesGoOn(s.states[s.failing[token][0]], Failer(token), s.clock);
    case DeliverNext(id) => MovesGoOn(s.states[s.jobs[id]], Failer(0), s.clock);
    case _ =>
  }

  /** Over any stretch of any run the consumer of a job receives what it had received, followed by more of
      what had entered the queue. */
  lemma {:induction false} StreamsOnlyGrow(limits: Limits, steps: seq<Step>, n: nat, h: nat)
    requires limits.maxCompleted > 0 && limits.maxInflight > 0 && n <= |steps| && Play(limits, steps).Some?
    requires Play(limits, steps[..n]).Some? && h < |Play(limits, steps[..n]).value.states|
    ensures var s, t := Play(limits, steps[..n]).value, Play(limits, steps).value;
      h < |t.states| && GoesOn(s.states[h], t.states[h])
    decreases |steps|
  {
    if n == |steps| {
      assert steps[..n] == steps;
    } else {
      var earlier := steps[..|steps| - 1];
      assert earlier[..n] == steps[..n];
      StreamsOnlyGrow(limits, earlier, n, h);
      PlayInv(limits, earlier);
      StreamGoesOn(Play(limits, earlier).value, steps[|steps| - 1], h);
    }
  }

  /** The IDs of the jobs closed by these steps, in order. */
  function Closes(steps: seq<Step>): seq<JobId> {
    if steps == [] then []
    else
      var last := steps[|steps| - 1];
      Closes(steps[..|steps| - 1]) + (if last.CloseJob? then [last.id] else [])
  }

  lemma MemoryStep(s: State, step: Step)
    requires CanStep(s, step)
    ensures Apply(s, step).limits == s.limits
    ensures Apply(s, step).completed ==
              if step.CloseJob? then FifoMemory.Remember(s.completed, step.id, s.limits.maxCompleted) else s.completed
  {
  }

  lemma {:induction false} CompletedIsMemory(limits: Limits, steps: seq<Step>)
    requires limits.maxCompleted > 0 && Play(limits, steps).Some?
    ensures Play(limits, steps).value.limits == limits
    ensures Play(limits, steps).value.completed == FifoMemory.Run(Closes(steps), limits.maxCompleted)
  {
    if steps != [] {
      var earlier, last := steps[..|steps| - 1], steps[|steps| - 1];
      CompletedIsMemory(limits, earlier);
      MemoryStep(Play(limits, earlier).value, last);
      if last.CloseJob? {
        assert Closes(steps)[..|Closes(steps)| - 1] == Closes(earlier);
      } else {
        assert Closes(steps) == Closes(earlier);
      }
    }
  }

  /** A closed job's ID cannot be opened for diagnostics until as many other IDs have been remembered as
      the memory holds. */
  lemma DiagnosticsNotReused(limits: Limits, steps: seq<Step>, k: nat, agent: nat)
    requires limits.maxCompleted > 0 && limits.maxInflight > 0 && Play(limits, steps).Some?
    requires var closed := FifoMemory.Insertions(Closes(steps), limits.maxCompleted);
      k < |closed| && closed[k] !in closed[k + 1..] && |closed| - k - 1 < limits.maxCompleted
    ensures !OpenCheck(Play(limits, steps).value, agent,
                       FifoMemory.Insertions(Closes(steps), limits.maxCompleted)[k], false).Opened?
  {
    CompletedIsMemory(limits, steps);
    FifoMemory.RememberedExactlyFor(Closes(steps), limits.maxCompleted, k);
  }

  // ---------------------------------------------------------------------------------------------
  // A run in which the closing failure is overtaken
  // ---------------------------------------------------------------------------------------------

  const JOB := JobId("j")
  const LIMITS := Limits(256, 4)

  /** The frames of that run: 1 to 32 fill the queue, 33 is taken from a second session, and the failure made
      before it, with number 33 as well, comes last. */
  function Numbers(n: nat): seq<Frame> {
    seq(n, (k: nat) => Frame(FromAgent, k + 1, false, if k < 32 then k else 33))
  }

  function AllFrames(): seq<Frame> {
    Numbers(33) + [Frame(Disconnected, 33, true, 32)]
  }

  function Filled(n: nat): State {
    State(LIMITS, map[0 := 0], [0], {}, map[JOB := 0],
          [NewJob(0, 0, Kubernetes).(queue := Numbers(n), nextSequence := n + 1)], [], map[], n)
  }

  function Drained(k: nat): State
    requires k <= 34
  {
    State(LIMITS, map[0 := 1], [0, 0], {0}, map[JOB := 0],
          [Job(0, 0, Kubernetes, AllFrames()[k..], map[], 34, false, if k == 34 then Closing else Open,
               AllFrames()[..k], true, false, {Crossing(32, 33)})],
          [], map[0 := []], 34)
  }

  lemma PlayOneMore(limits: Limits, steps: seq<Step>, step: Step, s: State)
    requires Play(limits, steps) == Some(s) && CanStep(s, step)
    ensures Play(limits, steps + [step]) == Some(Apply(s, step))
  {
  }

  lemma OpenedRun() returns (steps: seq<Step>)
    ensures Play(LIMITS, steps) == Some(Filled(0))
  {
    var s0 := Initial(LIMITS);
    assert Play(LIMITS, []) == Some(s0);
    PlayOneMore(LIMITS, [], Connect(0), s0);
    steps := [] + [Connect(0)];
    var s1 := Apply(s0, Connect(0));
    var open := OpenJob(0, JOB, Kubernetes, false);
    assert SafeName("j");
    assert Inflight(s1, 0) == {};
    assert OpenCheck(s1, 0, JOB, false) == Opened(0);
    PlayOneMore(LIMITS, steps, open, s1);
    steps := steps + [open];
    assert Numbers(0) == [];
    var s2 := Apply(s1, open);
    assert s2.states == Filled(0).states;
    assert s2.sessions == map[0 := 0] && s2.jobs == map[JOB := 0] && s2.agents == [0];
  }

  lemma {:induction false} FillRun(n: nat) returns (steps: seq<Step>)
    requires n <= 32
    ensures Play(LIMITS, steps) == Some(Filled(n))
  {
    if n == 0 {
      steps := OpenedRun();
    } else {
      steps := FillRun(n - 1);
      FillsOneMore(n);
      PlayOneMore(LIMITS, steps, Accept(0, JOB, n, false), Filled(n - 1));
      steps := steps + [Accept(0, JOB, n, false)];
    }
  }

  lemma FillsOneMore(n: nat)
    requires 0 < n <= 32
    ensures CanStep(Filled(n - 1), Accept(0, JOB, n, false))
    ensures Apply(Filled(n - 1), Accept(0, JOB, n, false)) == Filled(n)
  {
    assert Numbers(n) == Numbers(n - 1) + [Frame(FromAgent, n, false, n - 1)];
    assert Take(Filled(n - 1).states[0], n - 1).crossings == {};
    assert Apply(Filled(n - 1), Accept(0, JOB, n, false)).states == Filled(n).states;
  }

  /** The run's state while job 0 is as given: which session is registered, which ended, what is to fail. */
  function Stage(sessions: map<nat, nat>, agents: seq<nat>, ended: set<nat>, failing: map<nat, seq<nat>>,
                 clock: nat, j: Job): State
  {
    State(LIMITS, sessions, agents, ended, map[JOB := 0], [j], [], failing, clock)
  }

  const FAILURE := Frame(Disconnected, 33, true, 32)

  function FullJob(): Job {
    NewJob(0, 0, Kubernetes).(queue := Numbers(32), nextSequence := 33)
  }

  function BlockedJob(): Job {
    FullJob().(putters := map[Failer(0) := FAILURE], waited := true)
  }

  /** The queue is full when the session ends; its disconnect waits with failure 33; the agent connects again. */
  function Reconnected(): State {
    Stage(map[0 := 1], [0, 0], {0}, map[0 := []], 33, BlockedJob())
  }

  lemma SessionEnds()
    ensures CanStep(Filled(32), EndReader(0, None))
    ensures Apply(Filled(32), EndReader(0, None)) == Stage(map[0 := 0], [0], {0}, map[], 32, FullJob())
  {
    assert {} + {0} == {0};
  }

  lemma SessionLeaves()
    ensures var s := Stage(map[0 := 0], [0], {0}, map[], 32, FullJob());
      && CanStep(s, Disconnect(0, [0]))
      && Apply(s, Disconnect(0, [0])) == Stage(map[], [0], {0}, map[0 := [0]], 32, FullJob())
  {
    assert map[0 := 0] - {0} == map[];
  }

  lemma FailureWaits()
    ensures var s := Stage(map[], [0], {0}, map[0 := [0]], 32, FullJob());
      CanStep(s, FailNext(0)) && Apply(s, FailNext(0)) == Stage(map[], [0], {0}, map[0 := []], 33, BlockedJob())
  {
    var s := Stage(map[], [0], {0}, map[0 := [0]], 32, FullJob());
    assert FailJob(FullJob(), 0, 32) == BlockedJob();
    assert Apply(s, FailNext(0)).states == [BlockedJob()];
    assert Apply(s, FailNext(0)).failing == map[0 := []];
  }

  lemma AgentReturns()
    ensures Apply(Stage(map[], [0], {0}, map[0 := []], 33, BlockedJob()), Connect(0)) == Reconnected()
  {
  }

  lemma ReconnectRun() returns (steps: seq<Step>)
    ensures Play(LIMITS, steps) == Some(Reconnected())
  {
    steps := FillRun(32);
    SessionEnds();
    PlayOneMore(LIMITS, steps, EndReader(0, None), Filled(32));
    steps := steps + [EndReader(0, None)];
    SessionLeaves();
    PlayOneMore(LIMITS, steps, Disconnect(0, [0]), Stage(map[0 := 0], [0], {0}, map[], 32, FullJob()));
    steps := steps + [Disconnect(0, [0])];
    FailureWaits();
    PlayOneMore(LIMITS, steps, FailNext(0), Stage(map[], [0], {0}, map[0 := [0]], 32, FullJob()));
    steps := steps + [FailNext(0)];
    AgentReturns();
    PlayOneMore(LIMITS, steps, Connect(0), Stage(map[], [0], {0}, map[0 := []], 33, BlockedJob()));
    steps := steps + [Connect(0)];
  }

  /** Job 0 of the reconnected agent, after one delivery, and after the overtaking frame and a second one. */
  function OneDelivered(): Job {
    BlockedJob().(queue := Numbers(33)[1..32], delivered := Numbers(33)[..1])
  }

  function Accepted(): Job {
    OneDelivered().(queue := Numbers(33)[1..], nextSequence := 34, crossings := {Crossing(32, 33)})
  }

  function Crosser(): Job {
    Accepted().(queue := Numbers(33)[2..], delivered := Numbers(33)[..2])
  }

  lemma FirstDelivered()
    ensures CanStep(Reconnected(), DeliverNext(JOB))
    ensures Apply(Reconnected(), DeliverNext(JOB)) == Stage(map[0 := 1], [0, 0], {0}, map[0 := []], 33, OneDelivered())
  {
    assert Deliver(BlockedJob()) == OneDelivered();
  }

  lemma Crosses()
    ensures AcceptFrame(OneDelivered(), 1, 33, false, 33) == Accepted()
    ensures Deliver(Accepted()) == Crosser()
  {
    assert Numbers(33)[1..] == Numbers(33)[1..32] + [Frame(FromAgent, 33, false, 33)];
    assert Numbers(33)[..2] == Numbers(33)[..1] + [Numbers(33)[1]];
    assert Take(OneDelivered(), 33).crossings == {Crossing(32, 33)} by {
      assert OneDelivered().putters == map[Failer(0) := FAILURE];
      assert Failer(0) in OneDelivered().putters;
    }
  }

  lemma FailureEntersLast()
    ensures GatewayJob.Wake(Crosser(), Failer(0)) == Drained(2).states[0]
  {
    assert Numbers(33)[2..] + [FAILURE] == AllFrames()[2..];
    assert Numbers(33)[..2] == AllFrames()[..2];
    assert map[Failer(0) := FAILURE] - {Failer(0)} == map[];
  }

  lemma CrossingDelivered()
    ensures var s := Stage(map[0 := 1], [0, 0], {0}, map[0 := []], 34, Accepted());
      && CanStep(s, DeliverNext(JOB))
      && Apply(s, DeliverNext(JOB)) == Stage(map[0 := 1], [0, 0], {0}, map[0 := []], 34, Crosser())
  {
    Crosses();
  }

  lemma FailureWakes()
    ensures var s := Stage(map[0 := 1], [0, 0], {0}, map[0 := []], 34, Crosser());
      CanStep(s, WakePut(0, Failer(0))) && Apply(s, WakePut(0, Failer(0))) == Drained(2)
  {
    FailureEntersLast();
  }

  /** One frame is delivered, and the new session's frame 33 takes the free place ... */
  lemma AcceptRun() returns (steps: seq<Step>)
    ensures Play(LIMITS, steps) == Some(Stage(map[0 := 1], [0, 0], {0}, map[0 := []], 34, Accepted()))
  {
    steps := ReconnectRun();
    FirstDelivered();
    PlayOneMore(LIMITS, steps, DeliverNext(JOB), Reconnected());
    steps := steps + [DeliverNext(JOB)];
    AcceptsAfterReconnect();
    PlayOneMore(LIMITS, steps, Accept(1, JOB, 33, false),
                Stage(map[0 := 1], [0, 0], {0}, map[0 := []], 33, OneDelivered()));
    steps := steps + [Accept(1, JOB, 33, false)];
  }

  /** ... another is delivered, and only then the waiting failure gets in. */
  lemma OvertakeRun() returns (steps: seq<Step>)
    ensures Play(LIMITS, steps) == Some(Drained(2))
  {
    steps := AcceptRun();
    CrossingDelivered();
    PlayOneMore(LIMITS, steps, DeliverNext(JOB), Stage(map[0 := 1], [0, 0], {0}, map[0 := []], 34, Accepted()));
    steps := steps + [DeliverNext(JOB)];
    FailureWakes();
    PlayOneMore(LIMITS, steps, WakePut(0, Failer(0)), Stage(map[0 := 1], [0, 0], {0}, map[0 := []], 34, Crosser()));
    steps := steps + [WakePut(0, Failer(0))];
  }

  lemma AcceptsAfterReconnect()
    ensures var s := Stage(map[0 := 1], [0, 0], {0}, map[0 := []], 33, OneDelivered());
      && CanStep(s, Accept(1, JOB, 33, false))
      && Apply(s, Accept(1, JOB, 33, false)) == Stage(map[0 := 1], [0, 0], {0}, map[0 := []], 34, Accepted())
  {
    Crosses();
  }

  lemma {:induction false} DrainRun(k: nat) returns (steps: seq<Step>)
    requires 2 <= k <= 34
    ensures Play(LIMITS, steps) == Some(Drained(k))
  {
    if k == 2 {
      steps := OvertakeRun();
    } else {
      steps := DrainRun(k - 1);
      DrainsOneMore(k);
      PlayOneMore(LIMITS, steps, DeliverNext(JOB), Drained(k - 1));
      steps := steps + [DeliverNext(JOB)];
    }
  }

  lemma DrainsOneMore(k: nat)
    requires 2 < k <= 34
    ensures CanStep(Drained(k - 1), DeliverNext(JOB)) && Apply(Drained(k - 1), DeliverNext(JOB)) == Drained(k)
  {
    var all := AllFrames();
    assert all[k - 1..][0] == all[k - 1] && all[k - 1..][1..] == all[k..];
    assert all[..k - 1] + [all[k - 1]] == all[..k];
    assert Apply(Drained(k - 1), DeliverNext(JOB)).states == Drained(k).states;
  }

  /** So strictly increasing numbers are not a law: here is a run whose consumer receives number 33 twice. */
  lemma OvertakingHappens() returns (steps: seq<Step>)
    ensures Play(LIMITS, steps).Some?
    ensures var s := Play(LIMITS, steps).value;
      && |s.states| == 1 && |s.states[0].delivered| == 34
      && s.states[0].delivered[32].sequence == s.states[0].delivered[33].sequence == 33
      && !StrictlyIncreasing(s.states[0].delivered) && FailureCrossed(s.states[0])
  {
    steps := DrainRun(34);
    var d := Drained(34).states[0].delivered;
    assert d == AllFrames();
    assert d[33].stamp == 32 && d[32].stamp == 33;
  }
}
