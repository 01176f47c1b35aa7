# DjangoOps: a verified model

A Dafny model of the parts of DjangoOps that must not go wrong: the Kubernetes release protocol between the
control plane and its agents, the direct deployment over SSH, and a few self-contained algorithms. It is
checked with `dafny verify dfyconfig.toml`.

The protocol exists so that a migration is never run twice blindly and a release is never rolled back when
the schema may be incompatible. No single file gives that; the model proves, over runs with crashes, lost
streams, reconnects, late results, retries and cancellations at any point, exactly how far it holds.

| file | what it models |
|---|---|
| Wire.dfy | requests, results and codes on the control channel |
| Text.dfy | trimming of strings |
| Executor.dfy | the agent's release run: permissions, render, upgrade with migration, check, rollback |
| Ledger.dfy | the agent's durable ledger of operation IDs and fingerprints |
| Agent.dfy | the agent as a transition system: admission, ledger, executions that outlive connections, crashes |
| ReleaseValues.dfy | sanitised Helm values and OTLP addresses, their digest, the injected correlation ID |
| Releases.dfy | the control plane's release rows: starts under a lock, reopening, guarded writes |
| Protocol.dfy | all of these together as one transition system: rows, waiting threads, dispatches, agents; the invariant of its runs |
| System.dfy | what holds over every run of it, and a run that shows the limit |
| Runs.dfy | building such runs |
| Eviction.dfy | a run of the whole in which an evicted operation starts again |
| GatewayJob.dfy, GatewaySteps.dfy, Gateway.dfy | one stream per agent, many jobs: sequence numbers, bounded queues, waiting puts, disconnects |
| GatewayService.dfy | the gateway object, method by method |
| FifoMemory.dfy | the bounded memory of IDs, which the repository writes three times |
| Deploy.dfy | `deploy_project` with commands that stop anywhere and still report failure |
| GraphqlCost.dfy | the cost walk over GraphQL fragments |
| Telemetry.dfy | counters, gauge, event buffer and export queue |
| Diagnostics.dfy | captured output, service names, the verdict of a diagnostics run |
| DiagnosticRows.dfy | stored diagnostic operations, their writers, and history trimming |

What the program does step by step is modelled twice: as a class whose methods are the program's, and as a
function or transition relation that each method is proved to follow; the theorems are about the latter.

## Assumptions

- One agent process per project root, and nobody else writes its ledger file.
- Renaming a file over another is atomic and durable; a failed ledger write leaves the old file.
- SHA-256 is injective on canonical content; the model uses a constructor for it.
- A target does not change after registration, and the database honours the target's row lock.
- Operation IDs are random and never repeat; a deployment's release ID is new on the host.
- Each step of a model is a stretch of code that nothing else interleaves with: one database statement or
  transaction, one stretch between two suspension points of the gateway, one locked section, one remote effect.
- Validators given by regular expressions are predicates, and so is the check of a URL's parts; external commands, clocks and the network are
  outcomes that the environment chooses.

## What does not hold

Where the code falls short of what one would expect of it, the model keeps the code, shows it by a run, and
proves the exact condition under which the property holds.

- `docs/phase3-kubernetes.md:25` says that a retry after an agent disconnect reuses the row and operation ID.
  The code does so for five codes, and AGENT_DISCONNECTED and STREAM_ORDER are not among them
  (`controlplane/kubernetes.py:25-31`). `Releases.RetryKeepsIdentityExactlyWhen` is the exact condition;
  `System.DisconnectedReleaseStartsTwice` gives, for every release, a run in which the agent starts it twice.
- The same paragraph says that a completed operation cannot be run again. It can once a full
  ledger has evicted its entry, and exactly then: `Agent.RunsAgainExactlyAfterEviction`.
  `Eviction.EvictedOperationStartsTwice` gives, for every release, a run in which it is.
- `docs/phase1-agent-channel.md:23` says that jobs do not go on after their stream is lost. They are cancelled,
  but nobody waits for them (`agent/internal/transport/transport.go:111-117`). What holds is that they begin no
  further command and end as cancelled: `Agent.LostStreamCancels`. What does not is that they are over when the
  agent connects again: `Agent.BesideLaterConnectionExactlyWhen` says exactly when one is still there, and
  `Agent.ExecutionOutlivesItsStream` gives such a run for every request.
- Frame numbers that a consumer receives are not always strictly increasing: a disconnect's failure frame
  that waits for a full queue can be overtaken by a frame of the next session with the same number.
  `Gateway.ConsumerStream` has the exact condition, read off what was accepted while the failure waited;
  `GatewayJob.OvertakenExactlyWhen` connects it to the order of delivery; `Gateway.OvertakingHappens` is a run.
- An OTLP address is not normalised once and for all: cutting off slashes can leave white space at the end,
  which the next pass cuts off with the slash before it, so that stored values submitted again have another
  digest. `ReleaseValues.EndpointTwice` is the exact condition, `ReleaseValues.SlashesHideSpace` an input.
- A deployment onto a host where `current` is a directory never succeeds, and its recovery fails as well:
  `Deploy.DeploysExactlyWhen`, `Deploy.DirectoryCurrentIsNotRecovered`. After a rename that took place but was
  reported as failed, `current` can be left on a removed release; `Deploy.FailedDeployKeepsCurrent` says
  exactly when, `Deploy.CurrentLeftDangling` gives the run. A capture that is reported as failed can leave its
  pointer for good: `Deploy.PointersAreRemoved`, `Deploy.CapturePointerLeft`.
- A healthy diagnostics run is stored as failed, because only the word "succeeded" is stored as success:
  `DiagnosticRows.VerdictsAreStoredAsFailures`. A cancellation stored before dispatch can be overwritten:
  `DiagnosticRows.TerminalStays`, `DiagnosticRows.EarlyEndOverwritesCancel`.
- The in-flight gauge is the number in flight only while finishes never exceed starts:
  `Telemetry.GaugeIsExactWhen`.

## Model

| member | source | states |
|---|---|---|
| Executor.HelmRevision | agent/internal/kubernetes/executor.go:184-208 | the `revision` of the JSON object if it is a nonzero number, else a nonzero numeric `version`, and nothing if there is no object, if `revision` is not a number, or if neither is nonzero |
| Executor.Session.Execute | agent/internal/kubernetes/executor.go:87-182 | for every outcome of every external step, result and commands of the run are those of the reference run `Run`; once a command was attempted, the result is the one that `Told` reads off the last attempt |
| Executor.Session.RunStep | agent/internal/kubernetes/executor.go:210-232 | one attempt is appended: the command runs only if its progress frame went out, and the step is good only if the command succeeded |
| Executor.RunIsTruthful | agent/internal/kubernetes/executor.go:87-182 | every run keeps the plan and its verdict is true of the commands that ran: `rolled_back` exactly after upgrade, failed check, rollback and second check; `succeeded` in release mode only after the whole plan and with a nonzero revision; a previous revision in the result is zero or the request's |
| Executor.RunIsTold | agent/internal/kubernetes/executor.go:87-182 | what every end of every run reports, status, revisions, rollback outcome and code: before the first command the first thing missing, then the position and the outcome of the last attempt decide, and a run ends nowhere else |
| Executor.SucceedsExactlyWhen | agent/internal/kubernetes/executor.go:156-167 | a release succeeds if and only if every command of the plan did and the metadata names a revision, and it reports that revision |
| Executor.ReportOfRun | agent/internal/transport/transport.go:256-278 | a reported success or rollback is the run's own, under the policy and the revision it needs; a reported success carries the revision that Helm named |
| Executor.ReportIsOwn | agent/internal/transport/transport.go:268-276 | a report never carries a foreign previous revision, nor a code of the ledger or the control plane |
| Executor.UpgradeIsGated | agent/internal/kubernetes/executor.go:99-157 | only release mode upgrades, and only after the 24 permission checks, the Helm check, lint and template, in this order, succeeded |
| Executor.RollbackIsGated | agent/internal/kubernetes/executor.go:169-181 | a rollback is issued only in release mode, under policy `allow`, to the recorded nonzero revision, and after the upgrade succeeded and the rollout check failed |
| Executor.UpgradesAtMostOnce | agent/internal/kubernetes/executor.go:150-157 | no run issues the upgrade, which carries the migration, twice |
| Executor.ReportsCancellation | agent/internal/transport/transport.go:268-271 | under a context that stays cancelled, the reported status is `cancelled` if and only if the context was cancelled by the end; then status and code are replaced and the rest is the run's own, and otherwise all of it is |
| Executor.CancelledRunsNothingMore | agent/internal/kubernetes/executor.go:215-226 | after the context is cancelled no further command is issued, at any point of the run |
| Executor.CancelledFromReports | agent/internal/transport/transport.go:256-278 | a run whose context is cancelled by the time some attempt begins issues no command from that attempt on, and is reported as `cancelled` |
| Ledger.State.PruneCompleted | agent/internal/transport/kubernetes_state.go:93-112 | removes exactly min(completed, excess) entries, all of them completed and none newer than a completed one that stays |
| Ledger.PruningExists | agent/internal/transport/kubernetes_state.go:93-112 | every ledger can be pruned to every target under that specification |
| Ledger.Store.Write | agent/internal/transport/kubernetes_state.go:114-145 | the file becomes the pruned state if the file system is healthy and unresolved entries fit, and is otherwise untouched |
| Ledger.Store.Begin | agent/internal/transport/kubernetes_state.go:147-175 | an admission puts the ID in flight in the file before it is reported; a known ID gives back its entry; every failure leaves the file as it was |
| Ledger.Store.Complete | agent/internal/transport/kubernetes_state.go:177-195 | the entry is recorded as completed with its result, or the file is untouched |
| Ledger.BeginKeeps | agent/internal/transport/kubernetes_state.go:147-175 | an admission keeps every unresolved entry and invents none, and the ledger stays within 256 entries |
| Ledger.CompleteKeeps | agent/internal/transport/kubernetes_state.go:177-195 | recording the result of an admitted job changes that entry and nothing else, and evicts nothing |
| Ledger.RecordsExactlyWhen | agent/internal/transport/kubernetes_state.go:177-195 | a result is recorded if and only if the file system is healthy and the other unresolved entries fit into the ledger; otherwise the file stays |
| Ledger.RejectsExactlyWhenFull | agent/internal/transport/kubernetes_state.go:161-168 | on a healthy file system a new ID is turned away if and only if 256 unresolved entries fill the ledger, which then stays unchanged |
| Ledger.EvictionWindow | agent/internal/transport/kubernetes_state.go:161-170 | an admission evicts at most one entry, only from a full ledger, and none that is newer than another completed one |
| Ledger.AdmittedExactlyWhenAbsent | agent/internal/transport/kubernetes_state.go:158-174 | on a healthy ledger with room an ID is admitted if and only if the ledger does not hold it |
| Ledger.OldestIsEvicted | agent/internal/transport/kubernetes_state.go:107-111 | in a full ledger of finished jobs a new admission evicts the oldest one |
| Ledger.EvictedJobRunsAgain | agent/internal/transport/kubernetes_state.go:165-174 | on one ledger: 256 finished jobs, one more job, and a request for the oldest is admitted again; `Eviction.EvictedOperationStartsTwice` is the run of the whole protocol |
| Agent.StartsAtMostOnceBetweenEvictions | agent/internal/transport/transport.go:177-224 | over every run with crashes, lost streams and reconnects, two starts of one ID are separated by the recording of the first result and then the eviction of its entry |
| Agent.StartsOnlyWhatIsDurable | agent/internal/transport/transport.go:190-219 | an execution starts only from a ledger that did not hold its ID and after it is durably in flight, and beside no other execution of that ID, not even one of an older connection |
| Agent.EntriesPersist | agent/internal/transport/kubernetes_state.go:93-195 | an unresolved entry stays with its fingerprint until its own result is recorded, and a completed one with its result until it is evicted, across prunes, other jobs and crashes |
| Agent.RepliesFromTheEntry | agent/internal/transport/transport.go:191-218 | while the ledger holds an ID: a conflict if the content is another one, even of a completed entry, else the recorded result, else the advice to recover; an unreadable ledger is named; nothing starts, nothing is written, and the slot is free again |
| Agent.AnswersUnknown | agent/internal/transport/transport.go:191-219 | an ID that the ledger does not hold is admitted, durably and without a reply, if the file system is healthy and fewer than 256 entries are unresolved; otherwise it is refused as DURABLE_STATE_UNAVAILABLE and nothing is written |
| Agent.FinishTells | agent/internal/transport/transport.go:268-278 | the end of an execution records its result and reports that very result; if it cannot be recorded the entry stays unresolved and DURABLE_STATE_UNAVAILABLE is reported |
| Agent.SlotsAreConserved | agent/internal/transport/transport.go:177-235 | over every run: the slots taken are exactly those of the request in the loop and of the connection's executions that have not departed, by one use each and never more than four; none is lost, however a request is refused, replayed, failed or cancelled |
| Agent.TakenExactlyWhen | agent/internal/transport/transport.go:177-189 | over every run: a request with a safe ID is taken if and only if no job of its ID is under way on the connection and fewer than four are, and is otherwise dropped; an unsafe ID is told so |
| Agent.ReplaysRecordedResult | agent/internal/transport/transport.go:200-212 | once a result is on disk, every later request with the same content gets that very result, on any connection and after any crash, until eviction |
| Agent.UnresolvedIsNeverRerun | agent/internal/transport/transport.go:213-217 | an operation admitted and not resolved is never started again: a repeated request is told to recover, or that it conflicts |
| Agent.LedgerIsBounded | agent/internal/transport/kubernetes_state.go:114-118 | in every state of every run the ledger holds at most 256 entries, among them every execution that is alive, in flight and with its fingerprint |
| Agent.RunsAgainExactlyAfterEviction | agent/internal/transport/kubernetes_state.go:158-174 | the exact limit over all runs: a job that has run is started again, on a healthy ledger with room, if and only if its completed entry was evicted |
| Agent.LostStreamCancels | agent/internal/transport/transport.go:89-117 | over every run: an execution that is alive when its agent reconnects is recorded and reported as `cancelled`, whenever and on whichever connection it ends, and issues no command from the attempts on that it had not begun when its stream was lost |
| Agent.BesideLaterConnectionExactlyWhen | agent/internal/transport/transport.go:109-117 | over every run: an execution runs beside a connection later than its own if and only if a stream was lost after its launch and neither its end nor a crash has come since the launch |
| Agent.ExecutionOutlivesItsStream | agent/internal/transport/transport.go:109-117 | for every request with a safe ID there is such a run |
| Agent.Runner.AdmitJob | agent/internal/transport/transport.go:226-235 | a slot is given exactly to an ID that is not active while fewer than four are |
| Agent.Runner.StartKubernetes | agent/internal/transport/transport.go:177-224 | one request is exactly the steps Receive, Begin and Launch of the transition system, refusals and replays included |
| Agent.Runner.BeginAndLaunch | agent/internal/transport/transport.go:190-223 | the ledger decides between refusal, conflict, replay, recovery and start, and a refused request gives its slot back |
| Agent.Runner.ExecuteKubernetes | agent/internal/transport/transport.go:256-278 | the result is recorded before it is sent; if it cannot be recorded, DURABLE_STATE_UNAVAILABLE is sent instead; the slot is freed last, and only on the execution's own connection; after the loss of its stream the run meets a cancelled context |
| Agent.Runner.Reconnect | agent/internal/transport/transport.go:98-117 | the contexts of all executions are cancelled, at whatever attempt each has reached; they go on, and the next connection starts with an empty active map |
| ReleaseValues.SanitizedIsStable | controlplane/kubernetes_observability.py:15-41 | a caller's correlation ID never survives; sanitising stored values again gives the same values, and so the same digest, if and only if a stored OTLP address does not end in white space and is acceptable itself |
| ReleaseValues.EndpointTwice | controlplane/telemetry.py:57-66 | a stored address is not empty and does not end in a slash; it is stored unchanged when submitted again if and only if it does not end in white space and is acceptable without the slashes that were cut off |
| ReleaseValues.EndpointIsTrimmed | controlplane/telemetry.py:57-66 | what is stored of an address is its part between the white space around it, without the slashes at its end, if that part is acceptable and not nothing but slashes |
| ReleaseValues.SanitizedKeeps | controlplane/kubernetes_observability.py:15-41 | exactly which values are accepted, and that they are stored as given but for the trimmed address and the dropped correlation ID |
| ReleaseValues.SlashesHideSpace | controlplane/telemetry.py:57-66 | the input `http://host/ /`, for which a second pass changes address and digest |
| ReleaseValues.CorrelationKeepsIdentity | controlplane/kubernetes_observability.py:44-53 | for one operation the dispatched values are equal if and only if the digests are, and two operations with observability on never dispatch equal values |
| ReleaseValues.CorrelationOfSafeId | controlplane/telemetry.py:46-50 | a safe operation ID is its own correlation ID |
| ReleaseValues.CorrelationIsSafe | controlplane/telemetry.py:46-50 | the first 64 characters of the text, each unsafe one replaced by an underscore |
| Releases.OneLiveRowPerKey | controlplane/kubernetes.py:281-321 | in every reachable table at most the newest row of a key is live, and rows of one key have different operation IDs |
| Releases.DeadRowsStay | controlplane/kubernetes.py:339-367 | a row that has left the live set never changes again, under any interleaving of starts, late results and cancellations |
| Releases.IdentityStays | controlplane/kubernetes.py:294-321 | key and operation ID of a row never change |
| Releases.RecoverableOnlyReopens | controlplane/kubernetes.py:295-302 | a recoverably failed row changes only when a start for its target reopens it, and then only its status and error code |
| Releases.ReopenLosesNoWrite | controlplane/kubernetes.py:282-302 | the unguarded reopening write overwrites nobody: from the read under the lock to the write the row is the one that was read |
| Releases.LateWritesAreIgnored | controlplane/kubernetes.py:341-367 | a result, failure or cancellation for a row that is no longer active changes nothing |
| Releases.RetryKeepsIdentityExactlyWhen | controlplane/kubernetes.py:283-353 | after a result, the next start with the same key keeps row and operation ID if and only if it was recorded as failed with one of the five recoverable codes |
| Releases.FindLive | controlplane/kubernetes.py:283-293 | finds the newest live row with the key, and nothing exactly if there is none |
| Releases.LookupDecides | controlplane/kubernetes.py:281-307 | the newest live row with the key is joined if active and reopened if recoverably failed; without one a row is created that names the revision of the newest success of its own target, or none |
| Releases.CreatedRowIsNew | controlplane/kubernetes.py:303-323 | over every run: a created row is what its start asked for, in its first phase, with nothing recorded, and names the newest success its own target had when the start read the rows |
| Releases.DispatchCarries | controlplane/kubernetes.py:330-339 | a dispatch has namespace, release name and credential of the target, image, values and previous revision of the row, release mode, and policy `allow` exactly for a migration declared safe; its correlation ID is the operation's where observability is on |
| Releases.ResultIsStored | controlplane/kubernetes.py:345-353 | an active row takes a reported terminal status as it is and any other as failed, with the revision, and with outcome and code up to their columns; nothing else changes |
| Releases.CancelIsStored | controlplane/kubernetes.py:340-367 | what an accepted and a refused cancellation and an unreachable backend store in an active row |
| Releases.KubernetesService.ReadUnderLock | controlplane/kubernetes.py:273-307 | refuses unacceptable input, and otherwise takes the lock with its own parameters and a decision that is right for the rows read: `Decided`, which names no function |
| Releases.KubernetesService.CommitStart | controlplane/kubernetes.py:294-338 | joins, reopens or creates, releases the lock, and dispatches a request with the row's ID that carries what target and row say |
| Releases.KubernetesService.RecordResult | controlplane/kubernetes.py:345-353 | an active row then holds the result, a success as success, and no other row changes; a row that is not active stays |
| Releases.KubernetesService.RecordUnavailable | controlplane/kubernetes.py:341-344 | fails a row as unavailable only while it is active |
| Releases.KubernetesService.CancelRelease | controlplane/kubernetes.py:357-367 | an active row ends cancelled without a code if the backend accepted, and failed with CANCEL_UNAVAILABLE if not; a terminal row stays |
| System.SameRequestEveryTime | controlplane/kubernetes.py:294-338 | over every run of the whole protocol, all dispatches of one operation ID are the same request to the same agent |
| System.ConflictIsUnreachable | agent/internal/transport/transport.go:205-208 | no reachable reply of an agent is OPERATION_ID_CONFLICT or INVALID_OPERATION_ID |
| System.RolledBackOnlyWhenSafe | controlplane/kubernetes.py:336-353 | a row ends rolled back, directly or by replay, only if its values declared the migration safe, a previous revision was recorded, and its agent ran this very request, to its end on the connection it was started on, through upgrade, failed check, rollback and second check |
| System.SucceededOnlyWhenVerified | controlplane/kubernetes.py:345-353 | a row that says succeeded carries the nonzero revision that Helm named, and its agent completed the whole plan for this very request on the connection it was started on |
| System.NeverTwiceBlindly | controlplane/kubernetes.py:281-321 | only one agent ever starts an operation; its starts are separated by a recorded result and an eviction; every older row with the same key is dead |
| System.DeadRowsAreNotDispatched | controlplane/kubernetes.py:281-338 | over every run: a dead row never changes again, and from then on no dispatch carries its operation ID |
| System.DisconnectedReleaseStartsTwice | controlplane/kubernetes.py:25-31 | the limit of the promise: for every release there is a run in which a disconnect makes the retry a new operation that starts while the first still runs for an older connection |
| Eviction.EvictedOperationStartsTwice | controlplane/kubernetes.py:295-302 | the other limit: for every release and every course of its first execution there is a run in which the thread loses contact, 256 later operations evict the entry, the retry reopens the row, and the agent starts the same operation again |
| System.DispatchesAreValid | agent/internal/kubernetes/executor.go:58-85 | for targets with valid names every dispatch passes the agent's own validation |
| System.DispatchCarriesRow | controlplane/kubernetes.py:330-339 | over every run: every dispatch of a row's operation goes to the agent of its target and carries what target and row say |
| System.DispatchesHaveOrigin | controlplane/kubernetes.py:330-339 | over every run: nothing is dispatched but operations of rows and validations of targets, which have nothing to roll back to |
| System.StartDispatchesOnce | controlplane/kubernetes.py:294-338 | over every run: a start that joins a release in progress sends nothing; any other sends exactly one request, for a row with its own key that is active from then on, and its thread waits for the answer |
| System.RowNamesNewestSuccess | controlplane/kubernetes.py:303-317 | over every run: the revision a row may be rolled back to is that of the newest success its own target had when its start read the table, and it never changes |
| System.AnswerIsStored | controlplane/kubernetes.py:345-353 | over every run: a result that reaches the thread of an active row is stored in that row as reported, success as success, and in no other |
| System.ExecutionBehind | controlplane/kubernetes.py:345-353 | behind every verdict that only an execution can give there is an execution of the row's own request that finished on its own connection with that verdict and that revision |
| GatewayJob.DeliveredFrames | controlplane/gateway.py:138-182 | whatever an agent sends, only the last frame a consumer gets is terminal, and all frames before it strictly increase |
| GatewayJob.OvertakenExactlyWhen | controlplane/gateway.py:138-182 | a delivered failure frame was overtaken if and only if a delivered frame of the agent was accepted, by the branch that counts it, while that failure waited for a place in the queue |
| GatewayJob.NothingMissing | controlplane/gateway.py:138-152 | the agent's frames are numbered 1, 2, 3, ... unless a waiting put was cancelled, and all frames are if no put ever waited |
| Gateway.PlayInv | controlplane/gateway.py:97-325 | every step of every interleaving keeps the invariant of sessions, jobs, queues, waiting puts and disconnects |
| Gateway.ConsumerStream | controlplane/gateway.py:138-247 | over every interleaving: one terminal frame at most, and last; strictly increasing if and only if no delivered frame was accepted while the disconnect's failure frame that ends the stream was waiting; contiguous from 1 as long as no put was dropped or had to wait |
| Gateway.OvertakingHappens | controlplane/gateway.py:174-182 | a run of 74 steps in which a consumer receives number 33 twice, so that strict order is not a law |
| Gateway.CapacityHolds | controlplane/gateway.py:97-104 | at most the limit of jobs per agent, and one session per agent, in every reachable state |
| Gateway.NoJobLeftHanging | controlplane/gateway.py:174-182 | once a disconnect is through, every listed job of that session has its end queued, taken, or being put |
| Gateway.CompletedIsMemory | controlplane/gateway.py:237-247 | the completed IDs are the bounded memory of all closed jobs |
| Gateway.DiagnosticsNotReused | controlplane/gateway.py:221-226 | a closed job's ID cannot be opened for diagnostics until as many other IDs were remembered as the memory holds |
| Gateway.OpensExactlyWhen | controlplane/gateway.py:204-235 | in every reachable state: a job is opened if and only if its ID is safe, not listed, and unused or allowed to be reused, and its agent is connected and has room; a refusal names the first of these that fails |
| Gateway.OpenedJobIsNew | controlplane/gateway.py:213-235 | an opened job expects number 1 on its agent's present session and changes no other; a refused one changes nothing |
| Gateway.AcceptsExactly | controlplane/gateway.py:138-152 | a frame of an unknown job or a foreign agent is ignored; the expected number is counted and the frame enters as it is; any other becomes a terminal failure with the number that was expected |
| Gateway.DisconnectFails | controlplane/gateway.py:174-182 | each listed job gets a terminal failure with the number it expected |
| Gateway.CancelSentExactlyWhen | controlplane/gateway.py:312-325 | a cancellation is on its way if and only if the job is listed and was cancelled before or its agent is connected |
| Gateway.StreamsOnlyGrow | controlplane/gateway.py:237-243 | over every run: nothing that entered a queue is lost, changed or reordered on its way to the consumer, and nothing received is taken back |
| GatewayService.AgentGateway.Connect | controlplane/gateway.py:97-104 | a second session of a connected agent is refused |
| GatewayService.AgentGateway.CountInflight | controlplane/gateway.py:230 | the loop counts exactly the listed jobs of the agent |
| GatewayService.AgentGateway.OpenJob | controlplane/gateway.py:213-235 | the checks in order: safe ID, not active, not used before, connected, below capacity; only then the job is listed, with its counter at 1 |
| GatewayService.AgentGateway.RejectCapability | controlplane/gateway.py:279-285 | a job refused for a missing capability leaves the table and is not remembered |
| GatewayService.AgentGateway.AcceptEvent | controlplane/gateway.py:138-152 | unknown jobs and foreign agents are ignored, the expected number is counted before the put, any other becomes a failure with the expected number |
| GatewayService.AgentGateway.BeginDisconnect | controlplane/gateway.py:174-182 | the session leaves the table, and exactly jobs of its agent are listed to be failed, none forgotten |
| GatewayService.AgentGateway.FailNextJob | controlplane/gateway.py:178-182 | the next listed job gets a terminal frame with its current number, which may have to wait |
| GatewayService.AgentGateway.NextEvent | controlplane/gateway.py:237-243 | the consumer gets the oldest frame and stops after a terminal one |
| GatewayService.AgentGateway.CloseEvents | controlplane/gateway.py:244-247 | a closed job leaves the table and its ID is remembered |
| GatewayService.AgentGateway.CancelJob | controlplane/gateway.py:312-325 | true exactly if the cancellation is on its way to the agent, now or from before |
| FifoMemory.MemoryIsRecentInsertions | controlplane/gateway.py:304-310 | after any calls the memory is the most recent distinct insertions, as many as fit |
| FifoMemory.RememberedExactlyFor | controlplane/gateway.py:304-310 | an ID is remembered if and only if fewer than the cap of others were inserted after it |
| FifoMemory.CompletedJobs.RememberCompleted | controlplane/gateway.py:304-310 | the gateway's set and deque stay in step and follow the specification |
| FifoMemory.AgentCompleted.MarkCompleted | agent/internal/transport/transport.go:316-332 | so do the agent's map and slice |
| FifoMemory.SeenKeys.RememberKey | controlplane/observability.py:42-49 | so do the event set and deque, and the caller learns exactly whether the key was new |
| Deploy.Deployment.RunSsh | cli/djangoops/deploy.py:221-234 | a command plays its effects one by one up to its fault and reports success only if it was not made to fail and can complete |
| Deploy.Deployment.DeployProject | cli/djangoops/deploy.py:130-169 | the order of commands, recoveries and cleanups, for every fault in every one of them; a failed upload or capture leaves stack and schema alone, and a service whose release `current` names is never taken down |
| Deploy.FailedDeployKeepsCurrent | cli/djangoops/deploy.py:130-169 | for every failure point of every command, recovery and cleanup: nothing foreign is touched and `current` stands for what it did before, unless (exactly) the activation's rename took place and the recovery was cut short before it put `current` back |
| Deploy.EarlyFailureChangesNothing | cli/djangoops/deploy.py:130-142 | a failed upload or capture leaves running stack and schema alone; the upload changes no link, the capture none but the deployment's own pointer |
| Deploy.ServiceIsNeverStopped | cli/djangoops/deploy.py:130-169 | where `current` led to anything, a stack that was not down is not down afterwards, whatever fails and however far failed commands and recoveries came |
| Deploy.FailsAtTheFirst | cli/djangoops/deploy.py:130-169 | a deployment fails at the first of its six commands that is made to fail or cannot succeed on the host, and reports that one |
| Deploy.ActiveFollowsLinks | cli/djangoops/deploy.py:249-255 | what `current` stands for is the end of the links that lead from it |
| Deploy.ActiveComesToAnEnd | cli/djangoops/deploy.py:249-255 | `current` stands for nothing exactly if there is none, and unless it goes in a circle the links from it come to an end |
| Deploy.RecoveryRestoresService | cli/djangoops/deploy.py:334-352 | if the recovery is not cut short, `current` and the running stack are those of the earlier release, or none on a first deployment |
| Deploy.RecoveryPutsBack | cli/djangoops/deploy.py:334-352 | a recovery stopped anywhere leaves an untouched `current` alone and puts a switched one back exactly if it came that far |
| Deploy.CommandSteady | cli/djangoops/deploy.py:237-382 | no command touches a foreign release directory or a link other than the deployment's own and `current` |
| Deploy.PointersAreRemoved | cli/djangoops/deploy.py:355-373 | no pointer of the deployment is left unless its removal was made to fail, except after a failed capture, which leaves its pointer exactly if it had finished and was then reported as failed |
| Deploy.SchemaChangesLate | cli/djangoops/deploy.py:143-162 | the schema is untouched by a deployment that fails before the migration, as far as the migration came in one that fails there, and migrated in one that fails at activation |
| Deploy.DeploysExactlyWhen | cli/djangoops/deploy.py:130-169 | a deployment succeeds if and only if no forward command is made to fail, the shared environment file exists, and `current` is absent or a link that can be resolved: no directory, no circle, and not a path whose parent is missing |
| Deploy.DeployedServes | cli/djangoops/deploy.py:130-169 | after success `current` leads to the new release, which is complete, running and migrated |
| Deploy.DirectoryCurrentIsNotRecovered | cli/djangoops/deploy.py:319-352 | if `current` is a directory, a deployment without any fault migrates, cannot activate or go back, and removes the release that is left running |
| Deploy.CurrentLeftDangling | cli/djangoops/deploy.py:319-352 | on every host that could be deployed to: a rename that takes place and is reported as failed, and a recovery that does not start, leave `current` on the new release, which is then removed |
| Deploy.CapturePointerLeft | cli/djangoops/deploy.py:249-262 | on every host with a release: a capture that takes place and is reported as failed leaves its pointer |
| GraphqlCost.CostWalk.Walk | controlplane/graphql/views.py:27-46 | ends on every document, cyclic fragments included, and adds exactly the fields and the depth of the selection set written out with re-entrant spreads cut |
| GraphqlCost.CostWalk.WalkOne | controlplane/graphql/views.py:32-46 | the same for one selection: field, spread or inline fragment |
| GraphqlCost.ResourceError | controlplane/graphql/views.py:17-57 | rejects exactly the queries with an operation deeper than allowed, else those with more fields in all, else those that name introspection where it is off |
| GraphqlCost.CountCountsFields | controlplane/graphql/views.py:34-35 | the count of fields is the number of fields |
| GraphqlCost.LevelsAreNested | controlplane/graphql/views.py:31-36 | the depth is that of the deepest selection set |
| GraphqlCost.NothingCut | controlplane/graphql/views.py:37-44 | for fragments without cycles nothing is cut: the walk measures the query with all fragments in place |
| GraphqlCost.AcceptedFitsInFull | controlplane/graphql/views.py:48-56 | an accepted query is within both limits once written out in full |
| GraphqlCost.LastDefinitionCounts | controlplane/graphql/views.py:19-23 | of several fragments with one name the last counts |
| Telemetry.Recorder.Begin | controlplane/telemetry.py:110-114 | a start raises the gauge of its labels by one and touches nothing else |
| Telemetry.Recorder.Observation | controlplane/telemetry.py:137-163 | labels outside the allow lists are replaced, the duration is clamped, and counter, total, gauge and buffer change as specified |
| Telemetry.Recorder.Finish | controlplane/telemetry.py:116-135 | the duration is the whole milliseconds elapsed, never negative and at most a day |
| Telemetry.Recorder.EnqueueExport | controlplane/telemetry.py:203-213 | a full queue drops and counts, any other takes the event at its end, and without an endpoint nothing happens |
| Telemetry.Recorder.TakeExport | controlplane/telemetry.py:222-224 | the oldest event is taken |
| Telemetry.Recorder.RecentForProject | controlplane/telemetry.py:169-172 | the last 1 to 50 buffered events of the project, in order |
| Telemetry.LabelsAreAllowed | controlplane/telemetry.py:195-201 | a label from the allow lists is used, any other is replaced by its default |
| Telemetry.OfProjectIsItsEvents | controlplane/telemetry.py:169-172 | a project sees all its own buffered events, in order, and nobody else's |
| Telemetry.GaugeIsLargestBalance | controlplane/telemetry.py:110-160 | the in-flight gauge is the largest value of starts minus finishes over all suffixes of the history |
| Telemetry.GaugeIsExactWhen | controlplane/telemetry.py:157-159 | the gauge is the number in flight if and only if finishes never exceeded starts |
| Telemetry.CountersAreExact | controlplane/telemetry.py:154-156 | each counter is the number of observations with its labels and each total the sum of their durations |
| Telemetry.CountersSumToObservations | controlplane/telemetry.py:155 | all counters together count every observation once |
| Telemetry.DurationIsBounded | controlplane/telemetry.py:154-156 | after any calls, each recorded total is at most 86,400,000 times its counter |
| Telemetry.BufferHoldsLatest | controlplane/telemetry.py:160 | the buffer holds the latest events, as many as fit |
| Telemetry.ExportsAreAccounted | controlplane/telemetry.py:203-224 | taken events followed by queued ones are exactly those that found room, in order; attempts equal dropped plus taken plus queued; the queue never exceeds its size |
| Diagnostics.CaptureIsPrefix | agent/internal/diagnostics/diagnostics.go:40-52 | for any split into writes the buffer holds the first 8192 bytes of the whole output |
| Diagnostics.CappedBuffer.Write | agent/internal/diagnostics/diagnostics.go:40-52 | one write appends what fits and claims everything |
| Diagnostics.ParseServices | agent/internal/diagnostics/diagnostics.go:243-257 | the safe trimmed lines, each once, in strictly ascending order |
| Diagnostics.SameSet | agent/internal/diagnostics/diagnostics.go:259-269 | true exactly for equal lists |
| Diagnostics.AscendingEqual | agent/internal/diagnostics/diagnostics.go:259-269 | strictly ascending lists are equal if and only if they have the same elements, so comparing lists compares sets |
| Diagnostics.SplitJoins | agent/internal/diagnostics/diagnostics.go:245 | splitting into lines loses nothing and leaves no line break |
| Diagnostics.CheckServices | agent/internal/diagnostics/diagnostics.go:78-89 | compose_services passes if and only if both commands succeeded and the declared and the running names are equal non-empty sets |
| Diagnostics.Run | agent/internal/diagnostics/diagnostics.go:60-157 | canceled exactly if interrupted; healthy exactly if services, Django checks, database, migrations and versions are all well; an interrupted run reports exactly the checks made before the phase at which it stopped |
| Diagnostics.InterruptedExactlyWhen | agent/internal/diagnostics/diagnostics.go:60-157 | a run goes to its end if and only if every phase can be announced and no cancellation is seen in a later phase than the first |
| Diagnostics.WorkersFollow | agent/internal/diagnostics/diagnostics.go:137-147 | the Celery checks add nothing to the verdict: they can fail only if the service check fails |
| DiagnosticRows.FrozenOnceTerminal | controlplane/services.py:238-268 | from dispatch on, a terminal row keeps status, error code and summary until it is deleted, under any interleaving |
| DiagnosticRows.FirstEndingWins | controlplane/services.py:151-175 | the first ending write of a dispatched operation decides the row for ever |
| DiagnosticRows.EndingIsStored | controlplane/services.py:122-175 | which status and code each result, timeout, failure, cancellation and refused start stores, with the first 32 checks of a result; all else stays |
| DiagnosticRows.ProgressIsStored | controlplane/services.py:238-245 | an active operation runs and shows the phase last reported |
| DiagnosticRows.EveryEndingHasItsCause | controlplane/services.py:122-268 | over every run: an operation that ended was ended by a step that causes just this status and this code |
| DiagnosticRows.StartedRowTells | controlplane/services.py:122-149 | an operation waits as pending exactly if it was handed over, and has ended as its cause says otherwise |
| DiagnosticRows.TerminalStays | controlplane/services.py:131-147 | a terminal row that is not deleted changes if and only if it meets the unguarded write of a request that did not hand the operation over, and that write differs from it |
| DiagnosticRows.EarlyEndOverwritesCancel | controlplane/services.py:131-136 | before dispatch a stored cancellation can be overwritten, by example |
| DiagnosticRows.OnlyTerminalDeleted | controlplane/services.py:177-188 | trimming deletes only terminal rows, however late the deletion comes after the choice |
| DiagnosticRows.TrimKeepsNewest | controlplane/services.py:177-188 | a trim keeps exactly the 200 newest terminal rows of its project, or all if there are no more, and touches nothing else |
| DiagnosticRows.VerdictsAreStoredAsFailures | controlplane/services.py:248-261 | only the literal `succeeded` is stored as success, and every verdict the agent can send is stored as failed |
| DiagnosticRows.OperationsService.Start | controlplane/services.py:122-149 | an operation is stored, handed over or ended early as its agent and the runtime dictate, and the history is trimmed |
| DiagnosticRows.OperationsService.Cancel | controlplane/services.py:151-175 | a terminal operation is left alone and its agent is not asked; otherwise the answer decides status and code |
| DiagnosticRows.OperationsService.SetRunning | controlplane/services.py:238-239 | only a pending row starts running |
| DiagnosticRows.OperationsService.SaveProgress | controlplane/services.py:242-245 | progress reaches only an active row |
| DiagnosticRows.OperationsService.SaveResult | controlplane/services.py:248-261 | a result reaches only an active row |
| DiagnosticRows.OperationsService.SaveError | controlplane/services.py:264-268 | so does a timeout or a failure |
| DiagnosticRows.OperationsService.NewestFirst | controlplane/services.py:177-185 | the terminal rows of a project, newest first |
| DiagnosticRows.OperationsService.TrimHistory | controlplane/services.py:177-188 | deletes exactly what lies beyond the 200 newest terminal rows |

## Left out

- Liveness. Nothing says that a release ever ends: a thread whose gateway call raises LookupError or ValueError leaves its row active (the model's step Abandon), and the agent drops requests it does not admit.
- gRPC, TLS, tokens, the Django ORM, subprocesses, Docker, Helm and kubectl themselves; dashboard, CSS, templates and generated code.
- `cli/djangoops/backup.py` and `cli/djangoops/health.py`, which are shell text, and `config.py`, `integrations.py` and `compose.py`, which are field-by-field validators and document building.
- Agent.Runner.StartKubernetes: diagnostic jobs, which share the four slots of a connection, are not part of this model; they only make refusals more frequent.
- Agent.Runner.StartKubernetes: the method runs the steps Receive, Begin and Launch in a row, while the transition system lets a crash and other executions come between them.
- Agent.LostStreamCancels: sending on a lost stream fails, so that the report is only recorded; the model keeps it among the frames sent, from where it may even arrive.
- System.SameRequestEveryTime: the wire is wider than the program's; any reply an agent ever sent for an operation may reach any thread of that operation, and requests may arrive any number of times.
- GatewayService.AgentGateway.AcceptEvent: job objects are values in a sequence, addressed by handles, instead of shared objects; coroutines keep handles where the program keeps references.
- GatewayService.AgentGateway.AcceptEvent: the bounded outgoing queue of a session, and waiting for it, is not part of this model, nor are heartbeats and the cancel frame sent after an out-of-order frame.
- Releases.KubernetesService.CommitStart: `previous_image` and `previous_values_digest`, which nothing reads, and users and projects.
- Releases.FindLive: rows are ordered by creation; rows created at the same instant are not distinguished.
- Executor.Session.Execute: arguments, timeouts and output of the commands; a command's success is an outcome.
- Deploy.Deployment.RunSsh: a remote command that goes on after its connection was lost, and a `current` that is a regular file. Archive building and the shell quoting of names.
- Deploy.Deployment.DeployProject: the release ID is well-formed, so the cleanups' own check of it always passes.
- GraphqlCost.ResourceError: parsing, and Python's recursion limit; the walk's running time can be exponential in the number of fragments.
- Telemetry.Recorder.Observation: correlation IDs, logging, the export itself and its error count, and the Prometheus text.
- Diagnostics.Run: details of checks, path resolution, and output that the 8192-byte capture cuts inside a name.
- DiagnosticRows.OperationsService.SaveResult: redacted details of checks and messages, and the upper-casing of an agent's status as an error code.
- DiagnosticRows.OperationsService.Cancel: the row is read once and then written under its guard; what the agent does in between is the outcome.
