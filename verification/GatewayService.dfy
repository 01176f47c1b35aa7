/** The gateway object itself. Each method runs from one suspension point to the next and is proved to be
    one step of `GatewaySteps`. */
module GatewayService {
  import opened Wire
  import opened GatewayJob
  import opened GatewaySteps
  import FifoMemory

  class AgentGateway {
    const limits: Limits
    const memory: FifoMemory.CompletedJobs<JobId>
    var sessions: map<nat, nat>
    var agents: seq<nat>
    var ended: set<nat>
    var jobs: map<JobId, nat>
    var states: seq<Job>
    var failing: map<nat, seq<nat>>
    var clock: nat

    function View(): State
      reads this, memory
    {
      State(limits, sessions, agents, ended, jobs, states, memory.order, failing, clock)
    }

    ghost predicate Valid()
      reads this, memory
    {
      memory.Valid() && memory.cap == limits.maxCompleted && Inv(View())
    }

    constructor (l: Limits)
      requires l.maxCompleted > 0 && l.maxInflight > 0
      ensures Valid() && fresh(memory) && View() == Initial(l)
    {
      limits := l;
      memory := new FifoMemory.CompletedJobs(l.maxCompleted);
      sessions, agents, ended := map[], [], {};
      jobs, states, failing, clock := map[], [], map[], 0;
      new;
      assert forall a :: Inflight(View(), a) == {};
    }

    /** Registers a session for an authenticated agent, unless one is connected already. */
    method Connect(agent: nat) returns (token: Option<nat>)
      requires Valid()
      modifies this
      ensures Valid() && View() == Apply(old(View()), Step.Connect(agent))
      ensures token == if agent in old(sessions) then None else Some(|old(agents)|)
    {
      ApplyInv(View(), Step.Connect(agent));
      if agent in sessions { return None; }
      token := Some(|agents|);
      sessions := sessions[agent := |agents|];
      agents := agents + [agent];
    }

    /** How many listed jobs belong to the agent. */
    method CountInflight(agent: nat) returns (n: nat)
      requires Valid()
      ensures n == |Inflight(View(), agent)|
    {
      n := 0;
      var left := jobs.Keys;
      ghost var counted: set<JobId> := {};
      while left != {}
        invariant left <= jobs.Keys
        invariant counted == set id | id in Inflight(View(), agent) && id !in left
        invariant n == |counted|
        decreases |left|
      {
        var id :| id in left;
        assert Listed(View(), id);
        left := left - {id};
        if states[jobs[id]].agent == agent {
          n := n + 1;
          counted := counted + {id};
        }
      }
      assert counted == Inflight(View(), agent);
    }

    /** The checks in the order the gateway makes them; only a job that passes all of them is listed. */
    method OpenJob(agent: nat, id: JobId, kind: Kind, reuse: bool) returns (result: OpenResult)
      requires Valid()
      modifies this
      ensures Valid() && View() == Apply(old(View()), Step.OpenJob(agent, id, kind, reuse))
      ensures result == OpenCheck(old(View()), agent, id, reuse)
      ensures result.Opened? ==>
                && |Inflight(View(), agent)| <= limits.maxInflight
                && id in jobs && states[jobs[id]].agent == agent && states[jobs[id]].nextSequence == 1
    {
      ApplyInv(View(), Step.OpenJob(agent, id, kind, reuse));
      if !SafeJobId(id) { return InvalidId; }
      if id in jobs { return AlreadyActive; }
      if id in memory.known && !reuse { return AlreadyUsed; }
      if agent !in sessions { return NotConnected; }
      var inflight := CountInflight(agent);
      if inflight >= limits.maxInflight { return AtCapacity; }
      result := Opened(|states|);
      jobs := jobs[id := |states|];
      states := states + [NewJob(agent, sessions[agent], kind)];
    }

    /** The session lacks the capability: the job is forgotten without being remembered as completed. */
    method RejectCapability(id: JobId)
      requires Valid() && CanStep(View(), Step.RejectCapability(id))
      modifies this
      ensures Valid() && View() == Apply(old(View()), Step.RejectCapability(id))
    {
      ApplyInv(View(), Step.RejectCapability(id));
      states := states[jobs[id] := states[jobs[id]].(phase := Closed)];
      jobs := jobs - {id};
    }

    /** A put that finds the queue full waits; it and its caller go on with the step `WakePut` of `GatewaySteps`. */
    method PutFrame(handle: nat, owner: Owner, frame: Frame)
      requires handle < |states|
      modifies this`states
      ensures states == old(states)[handle := Put(old(states)[handle], owner, frame)]
    {
      var job := states[handle];
      if |job.queue| < MAX_EVENTS {
        states := states[handle := job.(queue := job.queue + [frame])];
      } else {
        states := states[handle := job.(putters := job.putters[owner := frame], waited := true)];
      }
    }

    /** The number is counted before the put, which may wait. */
    method AcceptInto(handle: nat, token: nat, sequence: nat, terminal: bool)
      requires handle < |states|
      modifies this`states
      ensures states == old(states)[handle := AcceptFrame(old(states)[handle], token, sequence, terminal, clock)]
    {
      var job := states[handle];
      if sequence != job.nextSequence {
        PutFrame(handle, Reader(token), Frame(OutOfOrder, job.nextSequence, true, clock));
      } else {
        states := states[handle := Take(job, clock)];
        PutFrame(handle, Reader(token), Frame(FromAgent, sequence, terminal, clock));
      }
    }

    /** One frame from an agent; a frame for an unknown job or for one of another agent is ignored. */
    method AcceptEvent(token: nat, id: JobId, sequence: nat, terminal: bool)
      requires Valid() && CanStep(View(), Accept(token, id, sequence, terminal))
      modifies this
      ensures Valid() && View() == Apply(old(View()), Accept(token, id, sequence, terminal))
    {
      ApplyInv(View(), Accept(token, id, sequence, terminal));
      if id !in jobs || states[jobs[id]].agent != agents[token] { return; }
      AcceptInto(jobs[id], token, sequence, terminal);
      clock := clock + 1;
    }

    /** The jobs of an agent, in any order. */
    method JobsOf(agent: nat) returns (order: seq<nat>)
      requires Valid()
      ensures forall h :: h in order ==> h < |states| && states[h].agent == agent
      ensures forall id :: id in jobs ==> jobs[id] < |states| && (states[jobs[id]].agent == agent ==> jobs[id] in order)
    {
      order := [];
      var left := jobs.Keys;
      while left != {}
        invariant left <= jobs.Keys
        invariant forall h :: h in order ==> h < |states| && states[h].agent == agent
        invariant forall id :: id in jobs && id !in left && jobs[id] < |states| && states[jobs[id]].agent == agent
                    ==> jobs[id] in order
        decreases |left|
      {
        var id :| id in left;
        assert Listed(View(), id);
        left := left - {id};
        if states[jobs[id]].agent == agent { order := order + [jobs[id]]; }
      }
      forall id | id in jobs ensures jobs[id] < |states| { assert Listed(View(), id); }
    }

    /** Takes the session out of the table and lists the jobs it has to fail. */
    method BeginDisconnect(token: nat) returns (order: seq<nat>)
      requires Valid() && Registered(View(), token) && token in ended && token !in failing
      modifies this
      ensures Valid() && CanStep(old(View()), Disconnect(token, order))
      ensures View() == Apply(old(View()), Disconnect(token, order))
      ensures agents[token] !in sessions
      ensures forall h :: h in order ==> h < |states| && states[h].agent == agents[token]
    {
      order := JobsOf(agents[token]);
      assert CanStep(View(), Disconnect(token, order));
      ApplyInv(View(), Disconnect(token, order));
      sessions := sessions - {agents[token]};
      failing := failing[token := order];
    }

    method FailNextJob(token: nat)
      requires Valid() && CanStep(View(), FailNext(token))
      modifies this
      ensures Valid() && View() == Apply(old(View()), FailNext(token))
    {
      ApplyInv(View(), FailNext(token));
      var handle := failing[token][0];
      PutFrame(handle, Failer(token), Frame(Disconnected, states[handle].nextSequence, true, clock));
      failing := failing[token := failing[token][1..]];
      clock := clock + 1;
    }

    /** The consumer takes the next frame; after a terminal one it takes no more. */
    method NextEvent(id: JobId) returns (frame: Frame, last: bool)
      requires Valid() && CanStep(View(), DeliverNext(id))
      modifies this
      ensures Valid() && View() == Apply(old(View()), DeliverNext(id))
      ensures frame == old(states)[old(jobs)[id]].queue[0] && last == frame.terminal
    {
      ApplyInv(View(), DeliverNext(id));
      var handle := jobs[id];
      var job := states[handle];
      frame := job.queue[0];
      last := frame.terminal;
      states := states[handle := job.(queue := job.queue[1..], delivered := job.delivered + [frame],
                                      phase := if last then Closing else job.phase)];
    }

    /** The consumer is done, whether it saw the end or gave up. */
    method CloseEvents(id: JobId)
      requires Valid() && CanStep(View(), CloseJob(id))
      modifies this, memory
      ensures Valid() && View() == Apply(old(View()), CloseJob(id))
    {
      ApplyInv(View(), CloseJob(id));
      states := states[jobs[id] := states[jobs[id]].(phase := Closed)];
      jobs := jobs - {id};
      memory.RememberCompleted(id);
    }

    /** True if the cancellation is on its way to the agent, now or from an earlier call. */
    method CancelJob(id: JobId) returns (sent: bool)
      requires Valid()
      modifies this
      ensures Valid() && CanStep(old(View()), Cancel(id)) && View() == Apply(old(View()), Cancel(id))
      ensures sent <==> id in jobs && states[jobs[id]].cancelSent
    {
      assert id in jobs ==> Listed(View(), id);
      ApplyInv(View(), Cancel(id));
      if id !in jobs { return false; }
      var job := states[jobs[id]];
      if job.cancelSent { return true; }
      if job.agent !in sessions { return false; }
      states := states[jobs[id] := job.(cancelSent := true)];
      sent := true;
    }
  }
}
