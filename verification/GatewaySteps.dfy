/** The steps of the control plane's gateway: one stream per agent and many jobs over it. Every step is a stretch
    of code between two suspension points, so that any interleaving of its tasks is a sequence of steps, and each
    of them is proved to keep the invariant. */
module GatewaySteps {
  import opened Wire
  import opened GatewayJob
  import FifoMemory

  datatype Limits = Limits(maxCompleted: nat, maxInflight: nat)

  /** `agents` gives the agent of every session ever registered, by token; `ended` are the sessions whose
      reader was stopped; `states` are the job objects ever made, which tasks may hold on to after the job
      left the table; `failing` is what each disconnect has still to fail. */
  datatype State = State(
    limits: Limits,
    sessions: map<nat, nat>,
    agents: seq<nat>,
    ended: set<nat>,
    jobs: map<JobId, nat>,
    states: seq<Job>,
    completed: seq<JobId>,
    failing: map<nat, seq<nat>>,
    clock: nat)

  datatype OpenResult = Opened(handle: nat) | InvalidId | AlreadyActive | AlreadyUsed | NotConnected | AtCapacity

  datatype Step =
    | Connect(agent: nat)
    | OpenJob(agent: nat, id: JobId, kind: Kind, reuse: bool)
    | RejectCapability(id: JobId)
    | Accept(token: nat, id: JobId, sequence: nat, terminal: bool)
    | WakePut(handle: nat, owner: Owner)
    | EndReader(token: nat, blockedAt: Option<nat>)
    | Disconnect(token: nat, order: seq<nat>)
    | FailNext(token: nat)
    | DeliverNext(id: JobId)
    | CloseJob(id: JobId)
    | Cancel(id: JobId)

  function Initial(limits: Limits): State {
    State(limits, map[], [], {}, map[], [], [], map[], 0)
  }

  function Inflight(s: State, agent: nat): set<JobId> {
    set id | id in s.jobs && s.jobs[id] < |s.states| && s.states[s.jobs[id]].agent == agent
  }

  /** The put of this owner has not returned yet. */
  predicate Waiting(s: State, owner: Owner) {
    exists h :: 0 <= h < |s.states| && owner in s.states[h].putters
  }

  /** The session is the one registered for its agent. */
  predicate Registered(s: State, token: nat) {
    token < |s.agents| && s.agents[token] in s.sessions && s.sessions[s.agents[token]] == token
  }

  function OpenCheck(s: State, agent: nat, id: JobId, reuse: bool): OpenResult {
    if !SafeJobId(id) then InvalidId
    else if id in s.jobs then AlreadyActive
    else if id in s.completed && !reuse then AlreadyUsed
    else if agent !in s.sessions then NotConnected
    else if |Inflight(s, agent)| >= s.limits.maxInflight then AtCapacity
    else Opened(|s.states|)
  }

  function WithJob(s: State, h: nat, j: Job): State
    requires h < |s.states|
  {
    s.(states := s.states[h := j])
  }

  predicate CanStep(s: State, step: Step) {
    match step
    case Connect(_) => true
    case OpenJob(_, _, _, _) => true
    case RejectCapability(id) => id in s.jobs && s.jobs[id] < |s.states| && s.states[s.jobs[id]].phase == Open
    case Accept(token, id, _, _) =>
      && Registered(s, token) && token !in s.ended && !Waiting(s, Reader(token))
      && (id in s.jobs ==> s.jobs[id] < |s.states|)
    case WakePut(h, owner) => h < |s.states| && owner in s.states[h].putters && |s.states[h].queue| < MAX_EVENTS
    case EndReader(token, blockedAt) =>
      && Registered(s, token) && token !in s.ended
      && (match blockedAt
          case Some(h) => h < |s.states| && Reader(token) in s.states[h].putters
          case None => !Waiting(s, Reader(token)))
    case Disconnect(token, order) =>
      && Registered(s, token) && token in s.ended && token !in s.failing
      && (forall h :: h in order ==> h < |s.states|)
      && (forall id :: id in s.jobs && s.jobs[id] < |s.states| && s.states[s.jobs[id]].agent == s.agents[token]
            ==> s.jobs[id] in order)
    case FailNext(token) =>
      && token in s.failing && s.failing[token] != [] && !Waiting(s, Failer(token))
      && s.failing[token][0] < |s.states|
    case DeliverNext(id) =>
      id in s.jobs && s.jobs[id] < |s.states| && s.states[s.jobs[id]].phase == Open && |s.states[s.jobs[id]].queue| > 0
    case CloseJob(id) => id in s.jobs && s.jobs[id] < |s.states| && s.limits.maxCompleted > 0
    case Cancel(id) => id in s.jobs ==> s.jobs[id] < |s.states|
  }

  function Apply(s: State, step: Step): State
    requires CanStep(s, step)
  {
    match step
    case Connect(agent) =>
      if agent in s.sessions then s
      else s.(sessions := s.sessions[agent := |s.agents|], agents := s.agents + [agent])
    case OpenJob(agent, id, kind, reuse) =>
      if !OpenCheck(s, agent, id, reuse).Opened? then s
      else s.(jobs := s.jobs[id := |s.states|], states := s.states + [NewJob(agent, s.sessions[agent], kind)])
    case RejectCapability(id) =>
      var h := s.jobs[id];
      WithJob(s, h, s.states[h].(phase := Closed)).(jobs := s.jobs - {id})
    case Accept(token, id, sequence, terminal) =>
      if id !in s.jobs || s.states[s.jobs[id]].agent != s.agents[token] then s
      else
        var h := s.jobs[id];
        WithJob(s, h, AcceptFrame(s.states[h], token, sequence, terminal, s.clock)).(clock := s.clock + 1)
    case WakePut(h, owner) => WithJob(s, h, Wake(s.states[h], owner))
    case EndReader(token, blockedAt) =>
      (if blockedAt.Some? then WithJob(s, blockedAt.value, CancelPut(s.states[blockedAt.value], Reader(token))) else s)
      .(ended := s.ended + {token})
    case Disconnect(token, order) =>
      s.(sessions := s.sessions - {s.agents[token]}, failing := s.failing[token := order])
    case FailNext(token) =>
      var h := s.failing[token][0];
      WithJob(s, h, FailJob(s.states[h], token, s.clock))
      .(failing := s.failing[token := s.failing[token][1..]], clock := s.clock + 1)
    case DeliverNext(id) => WithJob(s, s.jobs[id], Deliver(s.states[s.jobs[id]]))
    case CloseJob(id) =>
      var h := s.jobs[id];
      WithJob(s, h, s.states[h].(phase := Closed))
      .(jobs := s.jobs - {id}, completed := FifoMemory.Remember(s.completed, id, s.limits.maxCompleted))
    case Cancel(id) =>
      if id !in s.jobs || s.states[s.jobs[id]].cancelSent || s.states[s.jobs[id]].agent !in s.sessions then s
      else WithJob(s, s.jobs[id], s.states[s.jobs[id]].(cancelSent := true))
  }

  // ---------------------------------------------------------------------------------------------
  // Invariant
  // ---------------------------------------------------------------------------------------------

  /** The end of the job is on its way: a terminal frame is queued, the consumer has taken one, or the
      disconnect of its session is putting one. */
  predicate EndPending(j: Job) {
    || j.phase == Closing
    || !NoTerminal(j.queue)
    || exists o :: o in j.putters && o.Failer?
  }

  /** A listed job is served by the session it was opened on, or that session's disconnect has it on its
      list, or its end is pending. */
  predicate Served(s: State, h: nat)
    requires h < |s.states|
  {
    var j := s.states[h];
    Registered(s, j.session) || (j.session in s.failing && h in s.failing[j.session]) || EndPending(j)
  }

  predicate JobPlaced(s: State, j: Job) {
    && j.session < |s.agents| && s.agents[j.session] == j.agent
    && forall o :: o in j.putters && o.Reader? ==>
         o.token < |s.agents| && s.agents[o.token] == j.agent && o.token !in s.ended && Registered(s, o.token)
  }

  ghost predicate JobsSound(s: State) {
    forall h {:trigger JobPlaced(s, s.states[h])} ::
      0 <= h < |s.states| ==> JobInv(s.states[h], s.clock) && JobPlaced(s, s.states[h])
  }

  predicate Listed(s: State, id: JobId) {
    id in s.jobs && s.jobs[id] < |s.states| && s.states[s.jobs[id]].phase != Closed && Served(s, s.jobs[id])
  }

  predicate OneWait(s: State) {
    forall h, k, o :: 0 <= h < |s.states| && 0 <= k < |s.states| && o in s.states[h].putters && o in s.states[k].putters
      ==> h == k
  }

  predicate HandlesDistinct(s: State) {
    forall id, other :: id in s.jobs && other in s.jobs && id != other ==> s.jobs[id] != s.jobs[other]
  }

  predicate FailerSound(s: State, t: nat) {
    && t in s.failing && t < |s.agents| && !Registered(s, t)
    && forall h :: h in s.failing[t] ==> h < |s.states|
  }

  ghost predicate Inv(s: State) {
    && s.limits.maxCompleted > 0 && s.limits.maxInflight > 0
    && (forall a :: a in s.sessions ==> Registered(s, s.sessions[a]) && s.agents[s.sessions[a]] == a)
    && (forall t :: t in s.ended ==> t < |s.agents|)
    && (forall id {:trigger Listed(s, id)} :: id in s.jobs ==> Listed(s, id))
    && HandlesDistinct(s)
    && OneWait(s)
    && JobsSound(s)
    && (forall t {:trigger FailerSound(s, t)} :: t in s.failing ==> FailerSound(s, t))
    && FifoMemory.Distinct(s.completed) && |s.completed| <= s.limits.maxCompleted
    && (forall a {:trigger Inflight(s, a)} :: |Inflight(s, a)| <= s.limits.maxInflight)
  }

  // ---------------------------------------------------------------------------------------------
  // Every step keeps the invariant
  // ---------------------------------------------------------------------------------------------

  /** A job may be replaced by its successor: same agent and session, no put that waits elsewhere, and no
      pending end lost. */
  ghost predicate Succeeds(s: State, h: nat, j: Job, clock: nat)
    requires h < |s.states|
  {
    var old_ := s.states[h];
    && JobInv(j, clock) && clock >= s.clock
    && j.agent == old_.agent && j.session == old_.session && JobPlaced(s, j)
    && (forall o :: o in j.putters ==> o in old_.putters || !Waiting(s, o))
    && (EndPending(old_) ==> EndPending(j))
    && (j.phase == Closed ==> old_.phase == Closed)
  }

  lemma SameInflight(s: State, t: State, a: nat)
    requires forall id :: id in t.jobs ==> id in s.jobs && t.jobs[id] == s.jobs[id]
    requires |s.states| == |t.states|
    requires forall h :: 0 <= h < |s.states| ==> t.states[h].agent == s.states[h].agent
    ensures |Inflight(t, a)| <= |Inflight(s, a)|
  {
    assert Inflight(t, a) <= Inflight(s, a);
    Smaller(Inflight(t, a), Inflight(s, a));
  }

  lemma Smaller<T>(a: set<T>, b: set<T>)
    requires a <= b
    ensures |a| <= |b|
  {
    assert b == a + (b - a);
  }

  lemma SuccessorServed(s: State, h: nat, j: Job, clock: nat, k: nat)
    requires h < |s.states| && Succeeds(s, h, j, clock) && k < |s.states| && Served(s, k)
    ensures Served(WithJob(s, h, j).(clock := clock), k)
  {
  }

  lemma OneWaitKept(s: State, h: nat, j: Job)
    requires OneWait(s) && h < |s.states|
    requires forall o :: o in j.putters ==> o in s.states[h].putters || !Waiting(s, o)
    ensures OneWait(WithJob(s, h, j))
  {
  }

  lemma JobReplaced(s: State, h: nat, j: Job, clock: nat)
    requires Inv(s) && h < |s.states| && Succeeds(s, h, j, clock)
    ensures Inv(WithJob(s, h, j).(clock := clock))
  {
    var t := WithJob(s, h, j).(clock := clock);
    OneWaitKept(s, h, j);
    forall id | id in t.jobs ensures Listed(t, id) {
      assert Listed(s, id);
      SuccessorServed(s, h, j, clock, s.jobs[id]);
    }
    forall k | 0 <= k < |t.states| ensures JobInv(t.states[k], t.clock) && JobPlaced(t, t.states[k]) {
      if k != h {
        assert JobPlaced(s, s.states[k]);
        LaterInv(s.states[k], s.clock, clock);
      }
    }
    forall u | u in t.failing ensures FailerSound(t, u) { assert FailerSound(s, u); }
    forall a ensures |Inflight(t, a)| <= t.limits.maxInflight { SameInflight(s, t, a); }
  }

  lemma ConnectKeepsJobs(s: State, agent: nat)
    requires JobsSound(s) && agent !in s.sessions
    ensures JobsSound(Apply(s, Connect(agent)))
  {
    var t := Apply(s, Connect(agent));
    forall k | 0 <= k < |t.states| ensures JobInv(t.states[k], t.clock) && JobPlaced(t, t.states[k]) {
      assert JobPlaced(s, s.states[k]);
    }
  }

  lemma ConnectInv(s: State, agent: nat)
    requires Inv(s)
    ensures Inv(Apply(s, Connect(agent)))
  {
    var t := Apply(s, Connect(agent));
    if agent !in s.sessions {
      ConnectKeepsJobs(s, agent);
      forall id | id in t.jobs ensures Listed(t, id) {
        assert Listed(s, id);
        assert JobPlaced(s, s.states[s.jobs[id]]);
      }
      forall u | u in t.failing ensures FailerSound(t, u) { assert FailerSound(s, u); }
      forall a ensures |Inflight(t, a)| <= t.limits.maxInflight { SameInflight(s, t, a); }
    }
  }

  lemma OpenKeepsBound(s: State, agent: nat, id: JobId, kind: Kind, reuse: bool, a: nat)
    requires OpenCheck(s, agent, id, reuse).Opened?
    requires |Inflight(s, a)| <= s.limits.maxInflight
    requires forall other :: other in s.jobs ==> s.jobs[other] < |s.states|
    ensures |Inflight(Apply(s, OpenJob(agent, id, kind, reuse)), a)| <= s.limits.maxInflight
  {
    var t := Apply(s, OpenJob(agent, id, kind, reuse));
    var before := if a == agent then Inflight(s, a) + {id} else Inflight(s, a);
    assert Inflight(t, a) <= before;
    Smaller(Inflight(t, a), before);
  }

  /** Opening leaves every other job and every wait as it was. */
  lemma OpenKeepsOthers(s: State, agent: nat, id: JobId, kind: Kind, reuse: bool)
    requires Inv(s) && OpenCheck(s, agent, id, reuse).Opened?
    ensures forall other :: other in s.jobs ==> s.jobs[other] < |s.states|
    ensures forall other :: other in s.jobs ==> Listed(Apply(s, OpenJob(agent, id, kind, reuse)), other)
    ensures OneWait(Apply(s, OpenJob(agent, id, kind, reuse)))
    ensures HandlesDistinct(Apply(s, OpenJob(agent, id, kind, reuse)))
  {
    var t := Apply(s, OpenJob(agent, id, kind, reuse));
    forall other | other in s.jobs ensures s.jobs[other] < |s.states| && Listed(t, other) {
      assert Listed(s, other);
    }
  }

  lemma OpenKeepsJobs(s: State, agent: nat, id: JobId, kind: Kind, reuse: bool)
    requires JobsSound(s) && OpenCheck(s, agent, id, reuse).Opened?
    requires Registered(s, s.sessions[agent]) && s.agents[s.sessions[agent]] == agent
    ensures JobsSound(Apply(s, OpenJob(agent, id, kind, reuse)))
  {
    var t := Apply(s, OpenJob(agent, id, kind, reuse));
    forall k | 0 <= k < |t.states| ensures JobInv(t.states[k], t.clock) && JobPlaced(t, t.states[k]) {
      if k < |s.states| { assert JobPlaced(s, s.states[k]); }
    }
  }

  lemma OpenInv(s: State, agent: nat, id: JobId, kind: Kind, reuse: bool)
    requires Inv(s) && OpenCheck(s, agent, id, reuse).Opened?
    ensures Inv(Apply(s, OpenJob(agent, id, kind, reuse)))
  {
    var t := Apply(s, OpenJob(agent, id, kind, reuse));
    OpenKeepsOthers(s, agent, id, kind, reuse);
    OpenKeepsJobs(s, agent, id, kind, reuse);
    assert Listed(t, id);
    forall u | u in t.failing ensures FailerSound(t, u) { assert FailerSound(s, u); }
    forall a ensures |Inflight(t, a)| <= t.limits.maxInflight { OpenKeepsBound(s, agent, id, kind, reuse, a); }
  }

  /** Taking a job off the table. */
  lemma UnlistedInv(s: State, id: JobId, completed: seq<JobId>)
    requires Inv(s) && id in s.jobs
    requires FifoMemory.Distinct(completed) && |completed| <= s.limits.maxCompleted
    ensures Inv(s.(jobs := s.jobs - {id}, completed := completed))
  {
    var t := s.(jobs := s.jobs - {id}, completed := completed);
    forall other | other in t.jobs ensures Listed(t, other) { assert Listed(s, other); }
    forall k | 0 <= k < |t.states| ensures JobInv(t.states[k], t.clock) && JobPlaced(t, t.states[k]) {
      assert JobPlaced(s, s.states[k]);
    }
    forall u | u in t.failing ensures FailerSound(t, u) { assert FailerSound(s, u); }
    forall a ensures |Inflight(t, a)| <= t.limits.maxInflight { SameInflight(s, t, a); }
  }

  lemma LeaveInv(s: State, id: JobId, completed: seq<JobId>)
    requires Inv(s) && id in s.jobs && s.jobs[id] < |s.states|
    requires FifoMemory.Distinct(completed) && |completed| <= s.limits.maxCompleted
    ensures Inv(WithJob(s, s.jobs[id], s.states[s.jobs[id]].(phase := Closed)).(
                jobs := s.jobs - {id}, completed := completed))
  {
    var h := s.jobs[id];
    var t := s.(jobs := s.jobs - {id}, completed := completed);
    var j := s.states[h].(phase := Closed);
    UnlistedInv(s, id, completed);
    assert JobPlaced(t, t.states[h]);
    RestatedInv(s.states[h], Closed, s.states[h].cancelSent, s.clock);
    ReplacedWhenUnlisted(t, h, j);
  }

  /** A job object no longer listed may change as it likes, within its own invariant. */
  lemma ReplacedWhenUnlisted(s: State, h: nat, j: Job)
    requires Inv(s) && h < |s.states| && forall id :: id in s.jobs ==> s.jobs[id] != h
    requires JobInv(j, s.clock) && JobPlaced(s, j) && j.agent == s.states[h].agent && j.putters == s.states[h].putters
    ensures Inv(WithJob(s, h, j))
  {
    var t := WithJob(s, h, j);
    OneWaitKept(s, h, j);
    forall id | id in t.jobs ensures Listed(t, id) { assert Listed(s, id); }
    forall k | 0 <= k < |t.states| ensures JobInv(t.states[k], t.clock) && JobPlaced(t, t.states[k]) {
      if k != h { assert JobPlaced(s, s.states[k]); }
    }
    forall u | u in t.failing ensures FailerSound(t, u) { assert FailerSound(s, u); }
    forall a ensures |Inflight(t, a)| <= t.limits.maxInflight { SameInflight(s, t, a); }
  }

  /** While a session's reader is free, no reader waits on a job of its agent. */
  lemma OnlyFailersWait(s: State, h: nat, token: nat)
    requires h < |s.states| && JobPlaced(s, s.states[h])
    requires Registered(s, token) && s.agents[token] == s.states[h].agent && !Waiting(s, Reader(token))
    ensures NoReaderWaits(s.states[h])
  {
  }

  lemma AcceptReplaces(s: State, h: nat, token: nat, sequence: nat, terminal: bool)
    requires Inv(s) && h < |s.states| && Registered(s, token) && s.states[h].agent == s.agents[token]
    requires token !in s.ended && !Waiting(s, Reader(token))
    ensures Inv(WithJob(s, h, AcceptFrame(s.states[h], token, sequence, terminal, s.clock)).(clock := s.clock + 1))
  {
    assert JobPlaced(s, s.states[h]);
    OnlyFailersWait(s, h, token);
    AcceptInv(s.states[h], token, sequence, terminal, s.clock);
    AcceptSucceeds(s, h, token, sequence, terminal);
    JobReplaced(s, h, AcceptFrame(s.states[h], token, sequence, terminal, s.clock), s.clock + 1);
  }

  lemma AcceptStepInv(s: State, token: nat, id: JobId, sequence: nat, terminal: bool)
    requires Inv(s) && CanStep(s, Accept(token, id, sequence, terminal))
    ensures Inv(Apply(s, Accept(token, id, sequence, terminal)))
  {
    if id in s.jobs && s.states[s.jobs[id]].agent == s.agents[token] {
      AcceptReplaces(s, s.jobs[id], token, sequence, terminal);
    }
  }

  lemma AcceptSucceeds(s: State, h: nat, token: nat, sequence: nat, terminal: bool)
    requires Registered(s, token) && h < |s.states| && s.states[h].agent == s.agents[token]
    requires token !in s.ended && !Waiting(s, Reader(token))
    requires JobPlaced(s, s.states[h])
    requires JobInv(AcceptFrame(s.states[h], token, sequence, terminal, s.clock), s.clock + 1)
    ensures Succeeds(s, h, AcceptFrame(s.states[h], token, sequence, terminal, s.clock), s.clock + 1)
  {
    PutKeepsEnd(s.states[h], token, sequence, terminal, s.clock);
  }

  lemma PutKeepsEnd(j: Job, token: nat, sequence: nat, terminal: bool, clock: nat)
    ensures EndPending(j) ==> EndPending(AcceptFrame(j, token, sequence, terminal, clock))
  {
    var k := AcceptFrame(j, token, sequence, terminal, clock);
    if i :| 0 <= i < |j.queue| && j.queue[i].terminal { assert k.queue[i] == j.queue[i]; }
    if o :| o in j.putters && o.Failer? { assert o in k.putters; }
  }

  lemma WakeKeepsEnd(j: Job, owner: Owner)
    requires owner in j.putters && (owner.Failer? ==> j.putters[owner].terminal)
    ensures EndPending(j) ==> EndPending(Wake(j, owner))
  {
    var k := Wake(j, owner);
    assert k.queue[|j.queue|] == j.putters[owner];
    if i :| 0 <= i < |j.queue| && j.queue[i].terminal { assert k.queue[i].terminal; }
    if o :| o in j.putters && o.Failer? { assert o != owner ==> o in k.putters; }
  }

  lemma WakeStepInv(s: State, h: nat, owner: Owner)
    requires Inv(s) && CanStep(s, WakePut(h, owner))
    ensures Inv(Apply(s, WakePut(h, owner)))
  {
    var j := s.states[h];
    assert JobPlaced(s, j);
    WakeInv(j, owner, s.clock);
    assert FrameSound(j.putters[owner], j, s.clock);
    WakeKeepsEnd(j, owner);
    JobReplaced(s, h, Wake(j, owner), s.clock);
  }

  lemma CancelPutSucceeds(s: State, h: nat, token: nat)
    requires Inv(s) && h < |s.states| && Reader(token) in s.states[h].putters
    ensures Succeeds(s, h, CancelPut(s.states[h], Reader(token)), s.clock)
  {
    var j := s.states[h];
    assert JobPlaced(s, j);
    CancelInv(j, Reader(token), s.clock);
    if o :| o in j.putters && o.Failer? { assert o in CancelPut(j, Reader(token)).putters; }
  }

  /** A reader that waits nowhere may end. */
  lemma EndedInv(s: State, token: nat)
    requires Inv(s) && token < |s.agents| && !Waiting(s, Reader(token))
    ensures Inv(s.(ended := s.ended + {token}))
  {
    var t := s.(ended := s.ended + {token});
    forall id | id in t.jobs ensures Listed(t, id) { assert Listed(s, id); }
    forall k | 0 <= k < |t.states| ensures JobInv(t.states[k], t.clock) && JobPlaced(t, t.states[k]) {
      assert JobPlaced(s, s.states[k]);
    }
    forall u | u in t.failing ensures FailerSound(t, u) { assert FailerSound(s, u); }
    forall a ensures |Inflight(t, a)| <= t.limits.maxInflight { SameInflight(s, t, a); }
  }

  lemma EndReaderInv(s: State, token: nat, at: Option<nat>)
    requires Inv(s) && CanStep(s, EndReader(token, at))
    ensures Inv(Apply(s, EndReader(token, at)))
  {
    if at.Some? {
      var h := at.value;
      var j := CancelPut(s.states[h], Reader(token));
      CancelPutSucceeds(s, h, token);
      JobReplaced(s, h, j, s.clock);
      var t := WithJob(s, h, j);
      assert t == t.(clock := s.clock);
      EndedInv(t, token);
    } else {
      EndedInv(s, token);
    }
  }

  lemma DisconnectKeepsJobs(s: State, token: nat, order: seq<nat>)
    requires JobsSound(s) && CanStep(s, Disconnect(token, order))
    ensures JobsSound(Apply(s, Disconnect(token, order)))
  {
    var t := Apply(s, Disconnect(token, order));
    assert forall u :: u != token && Registered(s, u) ==> Registered(t, u);
    forall k | 0 <= k < |t.states| ensures JobInv(t.states[k], t.clock) && JobPlaced(t, t.states[k]) {
      assert JobPlaced(s, s.states[k]);
    }
  }

  lemma DisconnectInv(s: State, token: nat, order: seq<nat>)
    requires Inv(s) && CanStep(s, Disconnect(token, order))
    ensures Inv(Apply(s, Disconnect(token, order)))
  {
    var t := Apply(s, Disconnect(token, order));
    DisconnectKeepsJobs(s, token, order);
    forall id | id in t.jobs ensures Listed(t, id) {
      assert Listed(s, id);
      assert JobPlaced(s, s.states[s.jobs[id]]);
    }
    forall u | u in t.failing ensures FailerSound(t, u) {
      assert u != token ==> FailerSound(s, u);
    }
    forall a ensures |Inflight(t, a)| <= t.limits.maxInflight { SameInflight(s, t, a); }
  }

  lemma FailSucceeds(s: State, h: nat, token: nat)
    requires Inv(s) && h < |s.states| && !Waiting(s, Failer(token))
    ensures Succeeds(s, h, FailJob(s.states[h], token, s.clock), s.clock + 1)
    ensures EndPending(FailJob(s.states[h], token, s.clock))
  {
    var j := s.states[h];
    assert JobPlaced(s, j);
    FailInv(j, token, s.clock);
    var k := FailJob(j, token, s.clock);
    if Waits(j) { assert Failer(token) in k.putters; } else { assert k.queue[|j.queue|].terminal; }
  }

  lemma MovedOnServed(s: State, token: nat, h: nat)
    requires token in s.failing && s.failing[token] != []
    requires s.failing[token][0] < |s.states| && EndPending(s.states[s.failing[token][0]])
    requires h < |s.states| && Served(s, h)
    ensures Served(s.(failing := s.failing[token := s.failing[token][1..]]), h)
  {
    if h in s.failing[token] && h != s.failing[token][0] {
      var i :| 0 <= i < |s.failing[token]| && s.failing[token][i] == h;
      assert s.failing[token][1..][i - 1] == h;
    }
  }

  lemma MovedOnJobs(s: State, token: nat)
    requires JobsSound(s) && token in s.failing && s.failing[token] != []
    ensures JobsSound(s.(failing := s.failing[token := s.failing[token][1..]]))
  {
    var t := s.(failing := s.failing[token := s.failing[token][1..]]);
    forall k | 0 <= k < |t.states| ensures JobInv(t.states[k], t.clock) && JobPlaced(t, t.states[k]) {
      assert JobPlaced(s, s.states[k]);
    }
  }

  lemma MovedOnFailers(s: State, token: nat, u: nat)
    requires token in s.failing && s.failing[token] != [] && u in s.failing && FailerSound(s, u)
    ensures FailerSound(s.(failing := s.failing[token := s.failing[token][1..]]), u)
  {
    assert forall h :: h in s.failing[token][1..] ==> h in s.failing[token];
  }

  /** The disconnect moves on from a job whose end is pending. */
  lemma MovedOnInv(s: State, token: nat)
    requires Inv(s) && token in s.failing && s.failing[token] != []
    requires s.failing[token][0] < |s.states| && EndPending(s.states[s.failing[token][0]])
    ensures Inv(s.(failing := s.failing[token := s.failing[token][1..]]))
  {
    var t := s.(failing := s.failing[token := s.failing[token][1..]]);
    forall id | id in t.jobs ensures Listed(t, id) {
      assert Listed(s, id);
      MovedOnServed(s, token, s.jobs[id]);
    }
    MovedOnJobs(s, token);
    forall u | u in t.failing ensures FailerSound(t, u) {
      assert FailerSound(s, u);
      MovedOnFailers(s, token, u);
    }
    forall a ensures |Inflight(t, a)| <= t.limits.maxInflight { SameInflight(s, t, a); }
  }

  lemma FailNextInv(s: State, token: nat)
    requires Inv(s) && CanStep(s, FailNext(token))
    ensures Inv(Apply(s, FailNext(token)))
  {
    var h := s.failing[token][0];
    var j := FailJob(s.states[h], token, s.clock);
    FailSucceeds(s, h, token);
    JobReplaced(s, h, j, s.clock + 1);
    MovedOnInv(WithJob(s, h, j).(clock := s.clock + 1), token);
  }

  lemma DeliverStepInv(s: State, id: JobId)
    requires Inv(s) && CanStep(s, DeliverNext(id))
    ensures Inv(Apply(s, DeliverNext(id)))
  {
    var h := s.jobs[id];
    var j := s.states[h];
    assert JobPlaced(s, j) && Listed(s, id);
    DeliverInv(j, s.clock);
    var k := Deliver(j);
    if !j.queue[0].terminal {
      if i :| 0 <= i < |j.queue| && j.queue[i].terminal { assert k.queue[i - 1].terminal; }
    }
    JobReplaced(s, h, k, s.clock);
  }

  lemma CancelStepInv(s: State, id: JobId)
    requires Inv(s) && CanStep(s, Cancel(id))
    ensures Inv(Apply(s, Cancel(id)))
  {
    if id in s.jobs {
      var h := s.jobs[id];
      assert Listed(s, id) && JobPlaced(s, s.states[h]);
      RestatedInv(s.states[h], s.states[h].phase, true, s.clock);
      JobReplaced(s, h, s.states[h].(cancelSent := true), s.clock);
    }
  }

  lemma ApplyInv(s: State, step: Step)
    requires Inv(s) && CanStep(s, step)
    ensures Inv(Apply(s, step))
  {
    match step
    case Connect(agent) => ConnectInv(s, agent);
    case OpenJob(agent, id, kind, reuse) =>
      if OpenCheck(s, agent, id, reuse).Opened? { OpenInv(s, agent, id, kind, reuse); }
    case RejectCapability(id) => LeaveInv(s, id, s.completed);
    case Accept(token, id, sequence, terminal) => AcceptStepInv(s, token, id, sequence, terminal);
    case WakePut(h, owner) => WakeStepInv(s, h, owner);
    case EndReader(token, at) => EndReaderInv(s, token, at);
    case Disconnect(token, order) => DisconnectInv(s, token, order);
    case FailNext(token) => FailNextInv(s, token);
    case DeliverNext(id) => DeliverStepInv(s, id);
    case CloseJob(id) =>
      LeaveInv(s, id, FifoMemory.Remember(s.completed, id, s.limits.maxCompleted));
    case Cancel(id) => CancelStepInv(s, id);
  }
}
