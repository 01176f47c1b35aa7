/** The agent's durable ledger of Kubernetes operations: a bounded file of job IDs and fingerprints,
    replaced atomically, from which only completed entries are ever evicted, oldest first. */
module Ledger {
  import opened Wire

  const MAX_JOBS: nat := 256

  datatype Entry = Entry(fingerprint: Fingerprint, completed: bool, result: Option<JobResult>, updatedAt: int)

  type Jobs = map<JobId, Entry>

  /** How the file system answers one operation on the ledger file. */
  datatype Fault = Healthy | NoProjectRoot | ReadFails | WriteFails

  datatype BeginReply = Existing(entry: Entry) | Admitted | Unavailable

  function InFlight(fingerprint: Fingerprint, now: int): Entry {
    Entry(fingerprint, false, None, now)
  }

  function Done(fingerprint: Fingerprint, result: JobResult, now: int): Entry {
    Entry(fingerprint, true, Some(result), now)
  }

  function CompletedIds(jobs: Jobs): set<JobId> {
    set id | id in jobs && jobs[id].completed
  }

  function Unresolved(jobs: Jobs): set<JobId> {
    set id | id in jobs && !jobs[id].completed
  }

  function Excess(size: nat, target: nat): nat {
    if size > target then size - target else 0
  }

  function Min(a: nat, b: nat): nat {
    if a <= b then a else b
  }

  // ---------------------------------------------------------------------------------------------
  // Specification
  // ---------------------------------------------------------------------------------------------

  /** `after` is `before` with just enough completed entries removed, none newer than one that is kept.
      Ties leave several such ledgers. */
  ghost predicate Pruned(before: Jobs, after: Jobs, target: nat) {
    && after.Keys <= before.Keys
    && (forall id :: id in after ==> after[id] == before[id])
    && (forall id :: id in before && id !in after ==> before[id].completed)
    && |after| == |before| - Min(|CompletedIds(before)|, Excess(|before|, target))
    && (forall gone, kept :: gone in before && gone !in after && kept in after && after[kept].completed
          ==> before[gone].updatedAt <= after[kept].updatedAt)
  }

  ghost predicate BeginStep(before: Jobs, id: JobId, fingerprint: Fingerprint, now: int, fault: Fault,
                            after: Jobs, reply: BeginReply) {
    if fault.NoProjectRoot? || fault.ReadFails? then after == before && reply == Unavailable
    else if id in before then after == before && reply == Existing(before[id])
    else if fault.WriteFails? || |Unresolved(before)| >= MAX_JOBS then after == before && reply == Unavailable
    else
      && reply == Admitted
      && id in after && after[id] == InFlight(fingerprint, now)
      && Pruned(before, after - {id}, MAX_JOBS - 1)
  }

  ghost predicate CompleteStep(before: Jobs, id: JobId, fingerprint: Fingerprint, result: JobResult, now: int,
                               fault: Fault, after: Jobs, ok: bool) {
    var updated := before[id := Done(fingerprint, result, now)];
    if !fault.Healthy? || |Unresolved(updated)| > MAX_JOBS then after == before && !ok
    else ok && Pruned(updated, after, MAX_JOBS)
  }

  // ---------------------------------------------------------------------------------------------
  // Counting
  // ---------------------------------------------------------------------------------------------

  lemma Partition(jobs: Jobs)
    ensures |jobs| == |CompletedIds(jobs)| + |Unresolved(jobs)|
    ensures jobs.Keys == CompletedIds(jobs) + Unresolved(jobs)
  {
    assert jobs.Keys == CompletedIds(jobs) + Unresolved(jobs);
    assert CompletedIds(jobs) !! Unresolved(jobs);
    assert |jobs| == |jobs.Keys|;
  }

  /** A pruned ledger is within its target exactly when the unresolved entries alone are. */
  lemma PrunedFits(before: Jobs, after: Jobs, target: nat)
    requires Pruned(before, after, target)
    ensures |after| <= target <==> |Unresolved(before)| <= target
    ensures Unresolved(after) == Unresolved(before)
  {
    Partition(before);
    Partition(after);
    assert Unresolved(after) == Unresolved(before);
  }

  /** So pruning a ledger that already fits changes nothing. */
  lemma SubmapOfSameSize(before: Jobs, after: Jobs)
    requires after.Keys <= before.Keys && |after| == |before|
    requires forall id :: id in after ==> after[id] == before[id]
    ensures after == before
  {
    SubsetOfSameSize(after.Keys, before.Keys);
  }

  /** A ledger pruned to make room takes one more entry without a second eviction. */
  lemma AdmissionFits(kept: Jobs, id: JobId, fingerprint: Fingerprint, now: int)
    requires |kept| < MAX_JOBS && id !in kept
    ensures var next := kept[id := InFlight(fingerprint, now)];
      next - {id} == kept && |next| <= MAX_JOBS && |Unresolved(next)| <= MAX_JOBS
  {
    var next := kept[id := InFlight(fingerprint, now)];
    assert next.Keys == kept.Keys + {id};
    Partition(next);
    assert next - {id} == kept;
  }

  lemma SubsetOfSameSize<T>(a: set<T>, b: set<T>)
    requires a <= b && |a| == |b|
    ensures a == b
  {
    if x :| x in b && x !in a {
      SubsetSize(a, b - {x});
    }
  }

  lemma SubsetSize<T>(a: set<T>, b: set<T>)
    requires a <= b
    ensures |a| <= |b|
  {
    assert |b| == |b - a| + |a| by {
      assert b == (b - a) + a;
    }
  }

  // ---------------------------------------------------------------------------------------------
  // The ledger in memory and on disk
  // ---------------------------------------------------------------------------------------------

  ghost predicate OldestFirst(jobs: Jobs, order: seq<JobId>) {
    && (forall i :: 0 <= i < |order| ==> order[i] in jobs && jobs[order[i]].completed)
    && (forall i, j :: 0 <= i < j < |order| ==> order[i] != order[j])
    && (forall i, j :: 0 <= i < j < |order| ==> jobs[order[i]].updatedAt <= jobs[order[j]].updatedAt)
  }

  /** The completed jobs sorted by age; the order of equally old jobs is left open. */
  method SortCompleted(jobs: Jobs) returns (order: seq<JobId>)
    ensures OldestFirst(jobs, order)
    ensures forall id :: id in order <==> id in CompletedIds(jobs)
    ensures |order| == |CompletedIds(jobs)|
  {
    order := [];
    var remaining := CompletedIds(jobs);
    while remaining != {}
      invariant OldestFirst(jobs, order)
      invariant forall id :: id in CompletedIds(jobs) <==> id in remaining || id in order
      invariant forall id :: id in order ==> id !in remaining
      invariant |order| + |remaining| == |CompletedIds(jobs)|
      decreases remaining
    {
      var id :| id in remaining;
      remaining := remaining - {id};
      order := Insert(jobs, order, id);
    }
  }

  method Insert(jobs: Jobs, order: seq<JobId>, id: JobId) returns (r: seq<JobId>)
    requires OldestFirst(jobs, order) && id in jobs && jobs[id].completed && id !in order
    ensures OldestFirst(jobs, r) && |r| == |order| + 1
    ensures forall x :: x in r <==> x == id || x in order
  {
    var i := |order|;
    while i > 0 && jobs[order[i - 1]].updatedAt > jobs[id].updatedAt
      invariant 0 <= i <= |order|
      invariant i < |order| ==> jobs[id].updatedAt <= jobs[order[i]].updatedAt
    {
      i := i - 1;
    }
    r := order[..i] + [id] + order[i..];
    InsertedInOrder(jobs, order, r, id, i);
  }

  lemma InsertedInOrder(jobs: Jobs, order: seq<JobId>, r: seq<JobId>, id: JobId, i: nat)
    requires OldestFirst(jobs, order) && id in jobs && jobs[id].completed && id !in order && i <= |order|
    requires i > 0 ==> jobs[order[i - 1]].updatedAt <= jobs[id].updatedAt
    requires i < |order| ==> jobs[id].updatedAt <= jobs[order[i]].updatedAt
    requires r == order[..i] + [id] + order[i..]
    ensures OldestFirst(jobs, r)
  {
    forall j, k | 0 <= j < k < |r|
      ensures r[j] != r[k] && jobs[r[j]].updatedAt <= jobs[r[k]].updatedAt
    {}
  }

  /** The decoded ledger, which the program edits before it writes it back. */
  class State {
    var jobs: Jobs

    constructor (content: Jobs)
      ensures jobs == content
    {
      jobs := content;
    }

    method PruneCompleted(target: nat)
      modifies this
      ensures Pruned(old(jobs), jobs, target)
    {
      if |jobs| <= target { return; }
      ghost var before := jobs;
      var completed := SortCompleted(jobs);
      ghost var order := completed;
      ghost var n := 0;
      while |jobs| > target && |completed| > 0
        invariant n <= |order| && completed == order[n..]
        invariant jobs.Keys <= before.Keys
        invariant forall id :: id in jobs ==> jobs[id] == before[id]
        invariant forall id :: id in before && id !in order ==> id in jobs
        invariant forall k :: 0 <= k < |order| ==> (order[k] in jobs <==> k >= n)
        invariant |jobs| == |before| - n >= target
        decreases |completed|
      {
        var oldest := completed[0];
        assert oldest == order[n];
        ghost var keys := jobs.Keys;
        jobs := jobs - {oldest};
        assert jobs.Keys == keys - {oldest};
        completed := completed[1..];
        n := n + 1;
      }
      PrunedByAge(before, jobs, order, n, target);
    }
  }

  /** Removing the `n` oldest completed jobs, with none to spare, is a pruning. */
  lemma PrunedByAge(before: Jobs, after: Jobs, order: seq<JobId>, n: nat, target: nat)
    requires OldestFirst(before, order) && n <= |order| == |CompletedIds(before)|
    requires forall id :: id in order <==> id in CompletedIds(before)
    requires after.Keys <= before.Keys && forall id :: id in after ==> after[id] == before[id]
    requires forall id :: id in before && id !in order ==> id in after
    requires forall k :: 0 <= k < |order| ==> (order[k] in after <==> k >= n)
    requires target <= |after| == |before| - n && (|after| == target || n == |order|)
    ensures Pruned(before, after, target)
  {
    forall gone, kept | gone in before && gone !in after && kept in after && after[kept].completed
      ensures before[gone].updatedAt <= after[kept].updatedAt
    {
      assert gone in order && kept in order;
      var i :| 0 <= i < |order| && order[i] == gone;
      var k :| 0 <= k < |order| && order[k] == kept;
    }
  }

  /** The ledger file. Renaming a temporary file over it makes every write all or nothing. */
  class Store {
    var disk: Jobs

    constructor ()
      ensures disk == map[]
    {
      disk := map[];
    }

    method Write(state: State, fault: Fault) returns (ok: bool)
      modifies this, state
      ensures Pruned(old(state.jobs), state.jobs, MAX_JOBS)
      ensures ok <==> fault.Healthy? && |old(Unresolved(state.jobs))| <= MAX_JOBS
      ensures disk == if ok then state.jobs else old(disk)
    {
      state.PruneCompleted(MAX_JOBS);
      PrunedFits(old(state.jobs), state.jobs, MAX_JOBS);
      if |state.jobs| > MAX_JOBS { return false; }
      if !fault.Healthy? { return false; }
      disk := state.jobs;
      ok := true;
    }

    method Begin(id: JobId, fingerprint: Fingerprint, now: int, fault: Fault) returns (reply: BeginReply)
      modifies this
      ensures BeginStep(old(disk), id, fingerprint, now, fault, disk, reply)
    {
      if fault.NoProjectRoot? || fault.ReadFails? { return Unavailable; }
      var state := new State(disk);
      if id in state.jobs { return Existing(state.jobs[id]); }
      state.PruneCompleted(MAX_JOBS - 1);
      ghost var kept := state.jobs;
      PrunedFits(disk, kept, MAX_JOBS - 1);
      if |state.jobs| >= MAX_JOBS { return Unavailable; }
      state.jobs := state.jobs[id := InFlight(fingerprint, now)];
      AdmissionFits(kept, id, fingerprint, now);
      ghost var next := state.jobs;
      var ok := Write(state, fault);
      SubmapOfSameSize(next, state.jobs);
      if !ok { return Unavailable; }
      reply := Admitted;
    }

    method Complete(id: JobId, fingerprint: Fingerprint, result: JobResult, now: int, fault: Fault) returns (ok: bool)
      modifies this
      ensures CompleteStep(old(disk), id, fingerprint, result, now, fault, disk, ok)
    {
      if fault.NoProjectRoot? || fault.ReadFails? { return false; }
      var state := new State(disk);
      state.jobs := state.jobs[id := Done(fingerprint, result, now)];
      ok := Write(state, fault);
    }
  }

  // ---------------------------------------------------------------------------------------------
  // Theorems
  // ---------------------------------------------------------------------------------------------

  /** What an admission or a lookup leaves behind: the bound, every unresolved entry of another job with
      its fingerprint, and otherwise only entries that were there before. */
  ghost predicate BeginEffect(before: Jobs, id: JobId, f: Fingerprint, now: int, after: Jobs, reply: BeginReply) {
    match reply
    case Unavailable => after == before
    case Existing(entry) => after == before && id in before && entry == before[id]
    case Admitted =>
      && id !in before && id in after && after[id] == Entry(f, false, None, now)
      && |after| <= MAX_JOBS
      && (forall other :: other in before && !before[other].completed ==> other in after)
      && (forall other :: other in after && other != id ==> other in before && after[other] == before[other])
  }

  lemma BeginKeeps(before: Jobs, id: JobId, f: Fingerprint, now: int, fault: Fault, after: Jobs, reply: BeginReply)
    requires |before| <= MAX_JOBS && BeginStep(before, id, f, now, fault, after, reply)
    ensures BeginEffect(before, id, f, now, after, reply)
  {
    if reply.Admitted? {
      var kept := after - {id};
      PrunedFits(before, kept, MAX_JOBS - 1);
      Partition(before);
      assert after.Keys == kept.Keys + {id};
      assert |after| == |kept| + 1;
      forall other | other in before && !before[other].completed
        ensures other in after
      {
        assert other in kept;
      }
      forall other | other in after && other != id
        ensures other in before && after[other] == before[other]
      {
        assert other in kept;
      }
    }
  }

  /** Recording the result of an admitted job evicts nothing and touches no other entry. */
  lemma CompleteKeeps(before: Jobs, id: JobId, f: Fingerprint, result: JobResult, now: int, fault: Fault,
                      after: Jobs, ok: bool)
    requires |before| <= MAX_JOBS && id in before
    requires CompleteStep(before, id, f, result, now, fault, after, ok)
    ensures ok <==> fault.Healthy?
    ensures after == if ok then before[id := Entry(f, true, Some(result), now)] else before
  {
    var updated := before[id := Done(f, result, now)];
    assert updated.Keys == before.Keys;
    Partition(updated);
    if ok { SubmapOfSameSize(updated, after); }
  }

  /** A result is recorded if and only if the file system is healthy and the other unresolved entries fit into
      the ledger by themselves; a ledger that was written last time always has room. */
  lemma RecordsExactlyWhen(before: Jobs, id: JobId, f: Fingerprint, result: JobResult, now: int, fault: Fault,
                           after: Jobs, ok: bool)
    requires CompleteStep(before, id, f, result, now, fault, after, ok)
    ensures ok <==> fault.Healthy? && |Unresolved(before) - {id}| <= MAX_JOBS
    ensures !ok ==> after == before
    ensures |before| <= MAX_JOBS ==> (ok <==> fault.Healthy?)
  {
    assert Unresolved(before[id := Done(f, result, now)]) == Unresolved(before) - {id};
    Partition(before);
    SubsetSize(Unresolved(before) - {id}, Unresolved(before));
  }

  /** A job that the ledger does not know is turned away, on a healthy file system, exactly when 256
      unresolved entries fill it; then the ledger is unchanged. */
  lemma RejectsExactlyWhenFull(before: Jobs, id: JobId, f: Fingerprint, now: int, after: Jobs, reply: BeginReply)
    requires id !in before && |before| <= MAX_JOBS && BeginStep(before, id, f, now, Healthy, after, reply)
    ensures reply == Unavailable <==> |before| == MAX_JOBS && Unresolved(before) == before.Keys
    ensures reply == Unavailable ==> after == before
  {
    Partition(before);
    if |Unresolved(before)| >= MAX_JOBS {
      SubsetOfSameSize(Unresolved(before), before.Keys);
    }
  }

  /** An admission evicts at most one entry. It does so only from a full ledger, and then every other
      completed entry is at least as new as the evicted one: 255 other jobs are unresolved or finished
      no earlier. */
  lemma EvictionWindow(before: Jobs, id: JobId, f: Fingerprint, now: int, after: Jobs, reply: BeginReply, gone: JobId)
    requires |before| <= MAX_JOBS && BeginStep(before, id, f, now, Healthy, after, reply)
    requires gone in before && gone !in after
    ensures |before| == MAX_JOBS && before[gone].completed && reply == Admitted
    ensures after.Keys == before.Keys - {gone} + {id}
    ensures forall other :: other in before && other != gone ==>
              !before[other].completed || before[other].updatedAt >= before[gone].updatedAt
  {
    var kept := after - {id};
    Partition(before);
    assert gone in CompletedIds(before);
    if |before| < MAX_JOBS { SubmapOfSameSize(before, kept); }
    assert |kept| == |before| - 1;
    assert kept.Keys <= before.Keys - {gone};
    SubsetOfSameSize(kept.Keys, before.Keys - {gone});
    forall other | other in before && other != gone && before[other].completed
      ensures before[other].updatedAt >= before[gone].updatedAt
    {
      assert other in kept && kept[other] == before[other];
    }
  }

  /** Every pair of ledgers related by pruning can be reached: a specification of pruning that no ledger
      meets would make the theorems above empty. */
  lemma PruningExists(before: Jobs, target: nat) returns (after: Jobs)
    ensures Pruned(before, after, target)
    decreases |before|
  {
    after := before;
    Partition(before);
    if |before| > target && CompletedIds(before) != {} {
      var oldest := OldestCompleted(before, CompletedIds(before));
      var rest := before - {oldest};
      assert rest.Keys == before.Keys - {oldest};
      assert CompletedIds(rest) == CompletedIds(before) - {oldest};
      after := PruningExists(rest, target);
    }
  }

  lemma OldestCompleted(jobs: Jobs, ids: set<JobId>) returns (oldest: JobId)
    requires ids != {} && forall id :: id in ids ==> id in jobs
    ensures oldest in ids && forall id :: id in ids ==> jobs[oldest].updatedAt <= jobs[id].updatedAt
    decreases ids
  {
    oldest :| oldest in ids;
    if ids != {oldest} {
      var rest := OldestCompleted(jobs, ids - {oldest});
      if jobs[rest].updatedAt < jobs[oldest].updatedAt { oldest := rest; }
    }
  }

  // ---------------------------------------------------------------------------------------------
  // The limit of the promise: an evicted ID is a new ID
  // ---------------------------------------------------------------------------------------------

  /** On a healthy file system that is not filled by unresolved work, an ID is admitted exactly when the
      ledger does not hold it, whether or not it ever ran before. */
  lemma AdmittedExactlyWhenAbsent(before: Jobs, id: JobId, f: Fingerprint, now: int, after: Jobs, reply: BeginReply)
    requires |Unresolved(before)| < MAX_JOBS && BeginStep(before, id, f, now, Healthy, after, reply)
    ensures reply == Admitted <==> id !in before
  {
  }

  /** An admission to a full ledger does not keep every entry. */
  lemma EvictionLeavesRoom(before: Jobs, id: JobId, f: Fingerprint, now: int, after: Jobs, reply: BeginReply)
    requires |before| == MAX_JOBS && BeginStep(before, id, f, now, Healthy, after, reply) && reply == Admitted
    ensures !(before.Keys <= after.Keys)
  {
    BeginKeeps(before, id, f, now, Healthy, after, reply);
    if before.Keys <= after.Keys {
      SubsetSize(before.Keys + {id}, after.Keys);
    }
  }

  /** In a full ledger of finished jobs, the one strictly oldest job is what a new admission evicts. */
  lemma OldestIsEvicted(before: Jobs, oldest: JobId, id: JobId, f: Fingerprint, now: int,
                        after: Jobs, reply: BeginReply)
    requires |before| == MAX_JOBS && Unresolved(before) == {} && id !in before && oldest in before
    requires forall other :: other in before && other != oldest ==> before[oldest].updatedAt < before[other].updatedAt
    requires BeginStep(before, id, f, now, Healthy, after, reply)
    ensures reply == Admitted && oldest !in after && Unresolved(after) <= {id}
  {
    EvictionLeavesRoom(before, id, f, now, after, reply);
    var gone :| gone in before && gone !in after;
    EvictionWindow(before, id, f, now, after, reply, gone);
    BeginKeeps(before, id, f, now, Healthy, after, reply);
    assert before[oldest].completed by { assert oldest !in Unresolved(before); }
    assert gone == oldest;
  }

  /** Distinct names, and a ledger of that many finished jobs, older ones first. */
  function Name(k: nat): JobId {
    JobId(seq(k + 1, _ => 'a'))
  }

  function FinishedJobs(n: nat, f: Fingerprint): (jobs: Jobs)
    ensures |jobs| == n
    ensures n > 0 ==> Name(0) in jobs
    ensures forall id :: id in jobs ==>
              1 <= |id.text| <= n && id == Name(|id.text| - 1) && jobs[id] == Done(f, Failure(RenderFailed), |id.text|)
  {
    if n == 0 then map[]
    else
      var fewer := FinishedJobs(n - 1, f);
      assert Name(n - 1) !in fewer;
      fewer[Name(n - 1) := Done(f, Failure(RenderFailed), n)]
  }

  /** A full ledger of finished jobs: one new job evicts the oldest of them, and the next request for that
      one is admitted again, so its migration would run a second time. */
  lemma EvictedJobRunsAgain(f: Fingerprint, now: int, mid: Jobs, after: Jobs, first: BeginReply, second: BeginReply)
    requires BeginStep(FinishedJobs(MAX_JOBS, f), JobId("b"), f, now, Healthy, mid, first)
    requires BeginStep(mid, Name(0), f, now, Healthy, after, second)
    ensures Name(0) in FinishedJobs(MAX_JOBS, f) && FinishedJobs(MAX_JOBS, f)[Name(0)].completed
    ensures first == Admitted && second == Admitted
  {
    var before := FinishedJobs(MAX_JOBS, f);
    var newcomer := JobId("b");
    assert newcomer !in before by {
      assert newcomer.text[0] == 'b' && Name(0).text[0] == 'a';
    }
    assert Unresolved(before) == {};
    OldestIsEvicted(before, Name(0), newcomer, f, now, mid, first);
    SubsetSize(Unresolved(mid), {newcomer});
    AdmittedExactlyWhenAbsent(mid, Name(0), f, now, after, second);
  }

  /** A ledger that is not filled by unresolved work admits an unknown job, and with room evicts nothing. */
  lemma AdmitsUnknown(disk: Jobs, id: JobId, f: Fingerprint, now: int) returns (after: Jobs)
    requires id !in disk && |Unresolved(disk)| < MAX_JOBS
    ensures BeginStep(disk, id, f, now, Healthy, after, Admitted)
    ensures |disk| < MAX_JOBS ==> after == disk[id := InFlight(f, now)]
  {
    var kept := PruningExists(disk, MAX_JOBS - 1);
    after := kept[id := InFlight(f, now)];
    assert after - {id} == kept;
    if |disk| < MAX_JOBS { SubmapOfSameSize(disk, kept); }
  }

  lemma AdmittedAlone(disk: Jobs, id: JobId, f: Fingerprint, now: int)
    requires id !in disk && |disk| < MAX_JOBS && Unresolved(disk) == {}
    ensures var next := disk[id := InFlight(f, now)]; |next| <= MAX_JOBS && Unresolved(next) <= {id}
  {
    var next := disk[id := InFlight(f, now)];
    AdmissionFits(disk, id, f, now);
    forall other | other in Unresolved(next) ensures other == id {
      assert other != id ==> other in Unresolved(disk);
    }
  }

  /** The result of an admitted job is recorded without an eviction. */
  lemma CompletesAdmitted(disk: Jobs, id: JobId, f: Fingerprint, result: JobResult, now: int)
    requires id in disk && |disk| <= MAX_JOBS
    ensures CompleteStep(disk, id, f, result, now, Healthy, disk[id := Done(f, result, now)], true)
  {
    var updated := disk[id := Done(f, result, now)];
    assert updated.Keys == disk.Keys;
    assert |updated| == |updated.Keys| == |disk.Keys| == |disk|;
    Partition(updated);
  }
}
