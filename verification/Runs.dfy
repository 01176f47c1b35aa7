/** Building runs of the protocol, to show what can happen. A world is reachable if some run ends in it, and
    each lemma below extends the reachable worlds by one stretch of a run: a move of an agent, a request that an
    agent starts, a start of a release. */
module Runs {
  import opened Wire
  import opened ReleaseValues
  import opened Protocol
  import Ledger
  import Agent
  import Releases

  ghost predicate Reachable(w: World) {
    exists worlds, steps {:trigger IsRun(worlds, steps)} :: IsRun(worlds, steps) && worlds[|worlds| - 1] == w
  }

  lemma StepReachable(v: World, step: Step, w: World)
    requires Reachable(v) && Next(v, step, w)
    ensures Reachable(w)
  {
    var worlds, steps :| IsRun(worlds, steps) && worlds[|worlds| - 1] == v;
    var more, further := worlds + [w], steps + [step];
    forall i | 0 <= i < |further| ensures Next(more[i], further[i], more[i + 1]) {
      if i < |steps| {
        assert further[i] == steps[i] && more[i] == worlds[i] && more[i + 1] == worlds[i + 1];
      }
    }
    assert IsRun(more, further);
  }

  lemma InitReachable(w: World)
    requires Init(w)
    ensures Reachable(w)
  {
    assert IsRun([w], []);
  }

  function WithAgent(w: World, x: nat, a: Agent.State): World {
    w.(agents := w.agents[x := a])
  }

  lemma AgentMoves(w: World, x: nat, s: Agent.Step, b: Agent.State)
    requires Reachable(w) && x in w.agents && Agent.Next(w.agents[x], s, b)
    requires s.Receive? ==> Dispatch(x, s.request) in w.dispatched
    ensures Reachable(WithAgent(w, x, b))
  {
    StepReachable(w, AgentStep(x, s), WithAgent(w, x, b));
  }

  lemma AgentLaunches(w: World, x: nat, r: Request, now: int) returns (disk: Ledger.Jobs)
    requires Reachable(w) && x in w.agents && Dispatch(x, r) in w.dispatched
    requires w.agents[x].loop.Idle? && Agent.Admissible(w.agents[x], r.jobId)
    requires r.jobId !in w.agents[x].disk && |Ledger.Unresolved(w.agents[x].disk)| < Ledger.MAX_JOBS
    ensures Reachable(WithAgent(w, x, Agent.Launched(w.agents[x], r, disk)))
    ensures Ledger.BeginStep(w.agents[x].disk, r.jobId, Sha256(r.content), now, Ledger.Healthy, disk, Ledger.Admitted)
    ensures |w.agents[x].disk| < Ledger.MAX_JOBS ==>
              disk == w.agents[x].disk[r.jobId := Ledger.InFlight(Sha256(r.content), now)]
  {
    var received, begun := Agent.UnknownLaunches(w.agents[x], r, now);
    disk := begun.disk;
    AgentMoves(w, x, Agent.Receive(r), received);
    AgentMovesOn(w, x, received, Agent.Begin(now, Ledger.Healthy), begun);
    AgentMovesOn(w, x, begun, Agent.Launch, Agent.Launched(w.agents[x], r, disk));
  }

  /** A launch while the ledger has room: nothing is evicted. */
  lemma AgentLaunchesWithRoom(w: World, x: nat, r: Request, now: int) returns (disk: Ledger.Jobs)
    requires Reachable(w) && x in w.agents && Dispatch(x, r) in w.dispatched
    requires w.agents[x].loop.Idle? && Agent.Admissible(w.agents[x], r.jobId)
    requires r.jobId !in w.agents[x].disk && |w.agents[x].disk| < Ledger.MAX_JOBS
    ensures disk == w.agents[x].disk[r.jobId := Ledger.InFlight(Sha256(r.content), now)]
    ensures Reachable(WithAgent(w, x, Agent.Launched(w.agents[x], r, disk)))
  {
    Ledger.Partition(w.agents[x].disk);
    disk := AgentLaunches(w, x, r, now);
  }

  lemma AgentMovesOn(w: World, x: nat, a: Agent.State, s: Agent.Step, b: Agent.State)
    requires Reachable(WithAgent(w, x, a)) && Agent.Next(a, s, b) && !s.Receive?
    ensures Reachable(WithAgent(w, x, b))
  {
    AgentMoves(WithAgent(w, x, a), x, s, b);
    assert w.agents[x := a][x := b] == w.agents[x := b];
  }

  /** The world after a start that found no live row with its key. */
  function NewRelease(w: World, t: nat, image: string, chartVersion: string, values: Values, id: JobId): World
    requires t in w.targets
  {
    var s := Releases.Start(image, chartVersion, values, Releases.Create(0));
    var r := Releases.DispatchOf(w.targets[t], image, values, id, 0);
    Issue(w.(table := w.table.(rows := w.table.rows + [Releases.Created(t, s, id)]),
             threads := w.threads + {Thread(|w.table.rows|, r)}), t, r)
  }

  lemma NewReleaseStarts(w: World, t: nat, image: string, chartVersion: string, values: Values, id: JobId)
    requires Reachable(w) && t in w.targets && w.table.locks == map[]
    requires Releases.Acceptable(image, values) && Releases.Fresh(w.table.rows, id) && id !in w.identities
    requires Releases.Decide(w.table.rows, Releases.Key(t, image, chartVersion, Digest(values))) == Releases.Create(0)
    ensures Reachable(NewRelease(w, t, image, chartVersion, values, id))
  {
    var look := Releases.Lookup(t, image, chartVersion, values);
    var locked := w.(table := Releases.Apply(w.table, look));
    StepReachable(w, TableStep(look), locked);
    var table := Releases.Apply(locked.table, Releases.Commit(t, id));
    assert table.locks == map[];
    assert AfterCommit(locked, t, id) == NewRelease(w, t, image, chartVersion, values, id);
    StepReachable(locked, TableStep(Releases.Commit(t, id)), AfterCommit(locked, t, id));
  }
}
