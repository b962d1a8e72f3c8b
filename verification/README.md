# SpecWire bridge: verified model

SpecWire turns GitLab webhooks into durable Flow executions and runs them from a leased job queue. This project
models the parts of the bridge whose correctness is not visible from any single function, and proves what they
promise. `dafny verify dfyconfig.toml` checks everything.

## What is modelled

| Files | Subject |
|---|---|
| `FlowGraph`, `CycleSearch`, `TopologicalSort`, `Validation`, `PublishRules` | the Flow document, its shape check, the three-colour cycle search, the breadth-first reachability, the copies of Kahn's algorithm, the publish validator and the rules it decides |
| `Interpreter`, `Execution`, `Outcomes`, `ExecutionProperties` | the single pass that pushes values along edges, as the executor and the simulator run it, over uninterpreted field-level work, and what every entry of a trace says |
| `OutputReached` | which nodes a live run processes, fresh or resumed, and exactly when it has passed an output |
| `Confluence`, `OrderDependence` | exactly when the result of the pass does not depend on the topological order, over all evaluators |
| `LiveOrder`, `LiveOrderDecision` | the same for live runs, in which filters hand their input on |
| `FlowWitnesses` | publishable Flows that depend on the order, or complete without an output |
| `RuntimeStore`, `StoredRows`, `StoreHistory`, `Leases`, `Redelivery` | the event, execution and job tables; what each operation stores; what every history of store operations keeps; how leases keep other workers away; the ingress loop over one envelope |
| `JobProtocol`, `JobRetries`, `StaleWrites` | worker threads with program counters, operators, deliveries and crashes interleaving on the store |
| `Checkpoints` | the node records of one execution under any number of interleaved runs |
| `Projections`, `IssueCreation`, `IssueCompletion` | correlation rows, create-once, and completing and closing issues over failed and retried runs |
| `FlowVersions` | versions and Hook routes of a Flow under interleaved publish, pause, archive and failed activation |
| `IdentityKeys`, `ArchiveFanOut` | the encoding behind idempotency keys, action identities, and the payloads a push yields |
| `EnvFile`, `ProjectMap` | rewriting and reading the env file, printing and parsing the project map |
| `Onboarding` | the onboarding saga over runs that stop anywhere |
| `Text` | the string functions used above |

Imperative sources are modelled as methods over fields and loops and are proved against specification functions;
the lemmas are about those functions. Protocols are transition systems: one step is one store statement or one
transaction, a crash may come between any two, and an action that is not enabled changes nothing.

## Assumptions

- Store statements and transactions are atomic and do not fail by themselves; a shutdown counts as a crash.
- `JobProtocol.NothingIsLost` assumes that a job is claimed again only after the thread that held it has stopped.
  `StaleWrites.ExpiredHolderLosesWork` shows a run without that assumption in which work is lost for good. All
  results about leases and retries do without it.
- `Checkpoints.CheckpointsHold` assumes that a run of an execution starts only at a quiet moment, which the worker's
  per-connection lock gives within one process; `Checkpoints.StartIsSafeWhenQuiet` shows that this is exactly what
  is needed. `IssueCreation.AtMostOneIssue` and the runs of `IssueCompletion` assume the same lock.
- Runs of one onboarding operation do not overlap, and the provider does not recognise a repeated creation: the
  adapters do not send on the key that `bridge/internal/provider/contracts.go:135` carries.
- `OutputReached` takes it that connectors are never recorded as skipped, which
  `OutputReached.ConnectorsNeverSkip` shows of the executor.
- Hashing has no collisions; new identifiers are fresh where a lemma says so; the clock is an abstract number.
- Snapshots survive redaction unchanged. That retention may clear them is modelled (`Bypassed`, `Success(None)`).

## Where the code does less than one would expect

Each of these is stated as a lemma with the exact condition, or with a run that shows it.

- Two edges into one input port pass validation, and then two error-free live runs of the same event along two
  topological orders can give the output connector different inputs (`FlowWitnesses.PublishableYetOrderDependent`).
  Which order the executor follows is decided by how the document lists its nodes and edges.
  `LiveOrderDecision.LiveOrderDecided` gives the exact condition.
- After retention has cleared the input connector's snapshot, a retried execution completes without passing an output,
  because a checkpoint counts as output (`FlowWitnesses.PurgedRetryCompletesWithoutOutput`). That is the only case
  (`OutputReached.CompletedReachedOutput`), and the branch for a Flow that reached no output is dead
  (`OutputReached.NoOutputIsDead`).
- `succeeded` is final only if nobody holds an old copy of the row (`StaleWrites.SucceededIsFinal`), and honest runs
  get to a succeeded row of which somebody does (`StaleWrites.SucceededNotFinal`).
- Once projections are marked, a failure to close the GitLab issues is never made good: retries succeed without a
  single provider call (`IssueCompletion.MarkedOnceThenSilent`, `IssueCompletion.ClosesIffActive`).
- `archived` is final only if no publication or pause was under way (`FlowVersions.ArchivedIsFinal`).
- The comment on `ActivateHookRoute` (`bridge/internal/store/hooks.go:112-115`) promises an active version even when a
  Flow is republished concurrently. Two overlapping publications can both succeed and leave no listed route
  (`FlowVersions.OverlappingPublishesUnlist`); `FlowVersions.ActivationLists` says when a route is listed.
- `publication:<change>:<sha>` can be read in two ways if a SHA contains a colon (`IdentityKeys.IdentityClashes`).
- A blank default project identifier makes the printed project map unreadable (`ProjectMap.PrintParse`).
- An onboarding run that stops between creating the target project and storing its checkpoint
  (`Onboarding.StopOrphans`) blocks every later run of the operation until the title becomes free
  (`Onboarding.OrphanBlocksForever`); then a second project is made (`Onboarding.FreedTitleMakesTwo`).

## Model

| member | source | states |
|---|---|---|
| FlowGraph.ValidateShape | bridge/internal/domain/flow.go:99-154 | accepts exactly the documents whose nodes, ports and edges are well formed and uniquely named, with edges between two different listed nodes |
| FlowGraph.TopologicalOrderAcyclic | bridge/internal/runtime/executor.go:522-560 | a graph with a topological order has no directed cycle |
| FlowGraph.BackwardClosedHasCycle | bridge/internal/runtime/executor.go:556-558 | a non-empty set in which every node has a predecessor contains a directed cycle, so what Kahn's algorithm leaves over is a cycle |
| CycleSearch.Search.Visit | bridge/internal/flow/validation.go:668-684 | the depth-first visit finds a back edge only on a real cycle, and otherwise finishes the node and keeps what was finished |
| CycleSearch.HasCycle | bridge/internal/flow/validation.go:662-691 | true exactly if the graph has a directed cycle, whatever order the roots come in |
| TopologicalSort.ExecutionOrder | bridge/internal/runtime/executor.go:522-560 | reports a cycle exactly if there is one (so exactly when the cycle search does), a dangling edge exactly if there is one, and otherwise lists all nodes once with every edge going forward |
| TopologicalSort.CompileOrder | bridge/internal/flow/compile.go:14-40 | for any order of seeding the queue, the node order of a plan lists all nodes once with every edge going forward |
| TopologicalSort.DrainQueue | bridge/internal/runtime/executor.go:544-555 | draining keeps the degrees equal to the edges not yet removed and the queue equal to the ready nodes, to the end |
| Validation.ReachableFromInput | bridge/internal/flow/validation.go:693-719 | the visited nodes are exactly those reachable from an input connector |
| Validation.Validate | bridge/internal/flow/validation.go:213-348 | a graph gets no diagnostic exactly if it is well shaped, has one input connector, no cycle, declared ports on every edge, connected required inputs and, to be published, only paths that end at outputs or terminals |
| PublishRules.ValidFlowByRules | bridge/internal/flow/validation.go:213-348 | and these conditions are, for every document, the written-out rules on nodes, ports, edges, paths and ends |
| Interpreter.DeliverAt | bridge/internal/runtime/executor.go:589-600 | propagation activates exactly the targets of the node's edges, writes exactly the ports they name, and leaves every other slot alone |
| Interpreter.NodeInputIs | bridge/internal/runtime/executor.go:562-587 | a connector works on its event, any other node on what its first filled port holds, wrapped if it is no object; only values at undeclared ports are picked from |
| Interpreter.RunStructural | bridge/internal/runtime/executor.go:87-167 | in every run, clean or not, active nodes are reachable, the input node keeps its event, and values sit only at ports that edges feed |
| Interpreter.ActiveInputsDeclared | bridge/internal/runtime/executor.go:562-587 | on a graph that passes validation (`Interpreter.ValidFlowWellWired`) every active node but the input connector finds a value at a declared input port |
| Interpreter.RunIgnoresPick | bridge/internal/runtime/executor.go:580-586 | so the whole run does not depend on the map-iteration fallback of the input lookup, whatever it would return |
| Confluence.FullRunSettled | bridge/internal/runtime/executor.go:87-167 | an error-free and skip-free run ends in a state where every slot holds the value of its last source and every value is what its node makes of its input |
| Confluence.ActivatesReachable | bridge/internal/flow/validation.go:693-719 | such a run processes exactly the nodes reachable from the input |
| Confluence.SameAlongEveryOrder | bridge/internal/flow/compile.go:14-40 | if every fed port has a last source, error-free runs along any two topological orders agree on every input and every value |
| Confluence.SingleFeedsHaveLastSource | bridge/internal/runtime/executor.go:589-600 | in particular if no port is fed by two edges |
| OrderDependence.OrderIndependenceDecided | bridge/internal/runtime/executor.go:87-167 | of the bare pass, whatever its nodes compute: results are the same along all topological orders, for all evaluators (filters that invent values included) and events, if and only if every port fed by reachable nodes has a source that all its other sources lead to |
| LiveOrder.TraceableRunsAgree | bridge/internal/runtime/executor.go:87-167 | if at every port that is read the values can be traced back through filters to one node, clean live runs along any two topological orders give every node the same input and value |
| LiveOrderDecision.LiveOrderDecided | bridge/internal/runtime/executor.go:87-241 | on a validated Flow the clean live runs of an event, fresh or resumed, agree along all topological orders if and only if values can be so traced, or a terminal is reached and there are none |
| FlowWitnesses.PublishableYetOrderDependent | bridge/internal/flow/validation.go:283-298 | a Flow that validates for publication, and two clean live runs of it along two topological orders that give the output connector different inputs |
| FlowWitnesses.PurgedRetryCompletesWithoutOutput | bridge/internal/runtime/executor.go:101-112 | a retry over a cleared input checkpoint ends as completed without an output connector |
| Execution.ExecutePass | bridge/internal/runtime/executor.go:87-175 | the executor's loop, with checkpoints, ends as completed, skipped, failed or without output exactly as the specified pass does, with the same trace |
| Execution.Propagate | bridge/internal/runtime/executor.go:589-600 | the loop over the edges delivers as specified and keeps the active set equal to the nodes holding inputs |
| Execution.SimulatePass | bridge/internal/flow/simulation.go:34-101 | the simulator's loop does what the specified pass does with simulated nodes |
| Outcomes.LiveTrace | bridge/internal/runtime/executor.go:87-241 | every entry of a live run, fresh or resumed, is as its node, the evaluation of its input and its record say; nothing comes after an unmatched filter, a terminal or a failure, and the run ends as skipped if and only if its last entry is an unmatched filter or a terminal |
| Outcomes.NoOutputSays | bridge/internal/runtime/executor.go:101-170 | a run that nothing stopped completes if and only if some entry is a success of an output connector or a recorded success of a connector |
| Outcomes.SimulatedTrace | bridge/internal/flow/simulation.go:34-170 | in a simulation an unmatched filter delivers nothing and the run goes on: every active node is visited once, activity comes only from successes, and only a failure ends the run |
| OutputReached.ProcessesOpenNodes | bridge/internal/runtime/executor.go:87-113 | a live run that does not halt, fresh or resumed, processes exactly the nodes reachable past checkpoints that still have a value |
| OutputReached.OutputPassedDecided | bridge/internal/runtime/executor.go:87-167 | and passes an output connector exactly if such a path leads to one, whatever the Flow and the checkpoints |
| OutputReached.CompletedReachedOutput | bridge/internal/runtime/executor.go:87-170 | on a publishable Flow a live run that neither fails nor skips has passed an output connector if and only if the input connector's checkpoint, if any, still has its value |
| OutputReached.NoOutputIsDead | bridge/internal/runtime/executor.go:168-170 | and the count of outputs is never zero at its end |
| ExecutionProperties.SimulationForetells | bridge/internal/flow/simulation.go:34-101 | if outputs are leaves and mapped descriptions are filled, the nodes of a fresh live run are a prefix of the simulated ones, with equal inputs |
| ExecutionProperties.ResumeRepeats | bridge/internal/runtime/executor.go:101-113 | a run resumed from checkpoints repeats every prefix the recorded run got through, whatever providers would answer now |
| RuntimeStore.Store.AcceptInboundEvent | bridge/internal/store/runtime.go:39-160 | one transaction that stores event, execution and job together, or reports the existing execution while still recording a new event, or changes nothing |
| RuntimeStore.Store.CreateFlowExecutionAndEnqueue | bridge/internal/store/runtime.go:301-317 | execution and first job are stored together or not at all |
| RuntimeStore.Store.RequeueFlowExecution | bridge/internal/store/runtime.go:322-373 | only a failed, indeterminate or reconciliation-required execution goes back to queued, together with a new job |
| RuntimeStore.Store.UpdateFlowExecution | bridge/internal/store/runtime.go:453-472 | status and attention become the caller's, attention normalised, whatever was stored |
| StoredRows.AcceptStores | bridge/internal/store/runtime.go:39-160 | which deliveries are refused, which are duplicates, and which columns the event, the execution and the job of an accepted one get, the stored event of the same key included |
| StoredRows.CreateStores | bridge/internal/store/runtime.go:301-317 | when a replay is stored, with which columns, and with a job due at once |
| StoredRows.RequeueStores | bridge/internal/store/runtime.go:322-373 | when a requeue is accepted; the execution is then queued without attention, its other columns kept, with a job due at once |
| StoredRows.UpdateStores | bridge/internal/store/runtime.go:453-472 | the update needs only the row; it takes status and attention from the caller and keeps all other columns |
| StoredRows.SettlementStores | bridge/internal/store/runtime.go:677-708 | settling needs the holder; the job is then done, failed now, or queued again for the time given, and held by nobody |
| RuntimeStore.Store.ClaimNextJob | bridge/internal/store/runtime.go:635-675 | claims a job exactly if one is due or has an expired lease, and then the earliest by availability, creation and identifier |
| Leases.ClaimTakesFirstDue | bridge/internal/store/runtime.go:635-675 | a claim takes a row that was queued and available, or running past its deadline, before all other such rows by availability, creation and identifier, and leases it until now plus the lease |
| Leases.LeaseHolds | bridge/internal/store/runtime.go:635-675 | in every history with a non-decreasing clock, after a claim no claim of the job succeeds before the lease is over, unless the job was settled in between |
| RuntimeStore.Store.CompleteJob | bridge/internal/store/runtime.go:677-688 | succeeds exactly for the worker that holds the job |
| RuntimeStore.Store.FailJob | bridge/internal/store/runtime.go:690-708 | the holder alone fails the job or queues it again at the given time |
| StoreHistory.HistoryUnique | bridge/internal/store/runtime.go:112-131 | the uniqueness of delivery columns and of workspace and idempotency key holds in every history |
| StoreHistory.OneReportsNew | bridge/internal/store/runtime.go:39-160 | in every history the accepts per workspace and key that report new, the replays stored under it and an execution there at the start add up to whether there is one at the end: at most one accept reports new, and exactly one unless a replay or an older execution holds the key |
| StoreHistory.AcceptsConverge | bridge/internal/store/runtime.go:139-150 | every later accept on the key, whatever happened between, reports the same execution as duplicate if it is in scope with fresh identifiers and is refused otherwise, and adds no execution and no job |
| StoreHistory.HistoryOneStartJob | bridge/internal/store/runtime.go:151-155 | every execution has exactly one job that started it |
| StoreHistory.HistoryLease | bridge/internal/store/runtime.go:656-708 | in every reachable state a job is running exactly if it has a named holder and a lease |
| StoreHistory.SettledForever | bridge/internal/store/runtime.go:677-708 | succeeded and failed are final: the row never changes again |
| StoreHistory.SettleNeedsLastClaim | bridge/internal/store/runtime.go:677-708 | a worker can complete or fail a job exactly if the last claim of it was its own and is not settled, so not after another worker has reclaimed it |
| StoreHistory.HistoryAttention | bridge/internal/store/runtime.go:18-33 | attention is set exactly on executions an operator can act on |
| JobProtocol.StepKeeps | bridge/internal/runtime/executor.go:891-916 | each step of a delivery, operator, worker thread or crash keeps the no-lost-work invariant |
| JobProtocol.NothingIsLost | bridge/internal/store/runtime.go:301-373 | in every interleaving with honest leases, an execution that is queued or running has a queued or running job that will still run it |
| JobRetries.RunIsHistory | bridge/internal/runtime/executor.go:891-916 | every interleaving is, for the tables, a history of store operations by named workers, so all history results hold of it |
| JobRetries.SettleOutcome | bridge/internal/runtime/executor.go:905-916 | the holder that settles a retryable problem at attempt a < 5 leaves the job queued for 5a seconds later; at attempt 5, or for any other problem, it has failed; without a problem it has succeeded |
| JobRetries.EndOutcome | bridge/internal/runtime/executor.go:124-175 | how a run ends decides the status of the execution and whether its job is settled as fine, as retryable or as not retryable |
| JobRetries.RetriesAreBounded | bridge/internal/runtime/executor.go:910-914 | a job is queued again automatically at most 4 times with at most 50 seconds of backoff, even if leases expire and threads overlap |
| JobRetries.FiveClaims | bridge/internal/runtime/executor.go:910-916 | without lease expiry a job is claimed at most 5 times and not queued again after the fifth |
| JobRetries.FailedAfterFive | bridge/internal/runtime/executor.go:891-916 | without lease expiry and with retryable problems only, a job that has failed was claimed exactly 5 times and queued again after attempts 1, 2, 3 and 4, with 50 seconds of backoff in all |
| StaleWrites.SucceededIsFinal | bridge/internal/httpapi/integration.go:1649-1676 | a succeeded execution stays so in all continuations exactly if no attention request and no running thread holds an old copy of it |
| StaleWrites.SucceededNotFinal | bridge/internal/httpapi/integration.go:1649-1676 | an honest run from an empty system after which a pending attention request undoes succeeded |
| StaleWrites.StuckForever | bridge/internal/store/runtime.go:341-361 | a running execution without job, thread or pending request stays so under every action, operator retry included |
| StaleWrites.ExpiredHolderLosesWork | bridge/internal/store/runtime.go:453-472 | a run in which a lease expires under a live thread and the execution is stuck for good |
| Checkpoints.NodeTable.CreateNodeExecution | bridge/internal/store/runtime.go:513-535 | inserts the row in progress, unless node and attempt are taken |
| Checkpoints.NodeTable.UpdateNodeExecution | bridge/internal/store/runtime.go:537-556 | changes the status of a row that is there, and reports one that is not |
| Checkpoints.LatestNodeExecutions | bridge/internal/runtime/executor.go:602-614 | over the rows in any order, yields every node's row with the highest attempt |
| Checkpoints.EnterDoes | bridge/internal/runtime/executor.go:101-124 | a connector whose result is known gets no row and no call; any other node gets a row one attempt after the last known, before its adapter is called; a taken row ends the run |
| Checkpoints.RecordDoes | bridge/internal/runtime/executor.go:124-166 | the row gets the answered status, and the run goes on exactly after a success |
| Checkpoints.AttemptsHaveNoGaps | bridge/internal/runtime/executor.go:115-124 | attempt numbers of a node are 1, 2, 3, ... under every interleaving of runs |
| Checkpoints.CheckpointsHold | bridge/internal/runtime/executor.go:101-147 | over any number of interrupted runs each connector has at most one success and its adapter is never called after it |
| Checkpoints.StartIsSafeWhenQuiet | bridge/internal/runtime/executor.go:891-900 | starting a run keeps single success in all continuations exactly if no other run may still record a connector's success |
| Projections.Correlations.UpsertCorrelation | bridge/internal/store/runtime.go:737-772 | an upsert replaces the row but never its lifecycle |
| Projections.Correlations.MarkCorrelationLifecycle | bridge/internal/store/runtime.go:867-895 | marks an active row, and reports success exactly if the row then has the status asked for |
| Projections.Correlations.ListCorrelations | bridge/internal/store/runtime.go:815-861 | lists exactly the rows of the change, each once, whichever Flow owns them |
| Projections.LeavesActiveOnce | bridge/internal/store/runtime.go:863-895 | in every interleaving of upserts and marks a projection's lifecycle changes at most once |
| Projections.TerminalStays | bridge/internal/store/runtime.go:863-895 | and a terminal status never changes |
| IssueCreation.IssuesConserved | bridge/internal/runtime/executor.go:270-307 | in every interleaving the issues made are those recorded, those a run still holds and those lost |
| IssueCreation.OnceRecorded | bridge/internal/runtime/executor.go:275-285 | once a change has its row and no run is still creating, no run calls the provider for it again and all return the recorded target |
| IssueCreation.LateLookupsCreateNone | bridge/internal/runtime/executor.go:275-285 | once the row exists, even with earlier runs still creating, no run that looks it up calls the provider, and at most the calls under way make an issue |
| IssueCreation.RecordedUnderLock | bridge/internal/runtime/executor.go:275-285 | under the connection's lock the row alone is enough: no more calls, one target |
| IssueCreation.RowsRecordAnswers | bridge/internal/runtime/executor.go:270-307 | in every interleaving from nothing, what a row records and what a run holds or has returned is an issue the provider answered to a run for that change |
| IssueCreation.AllReturnTheSame | bridge/internal/runtime/executor.go:270-307 | under the connection's lock all runs for a change that return, the creator included, return one and the same answered issue |
| IssueCreation.AtMostOneIssue | bridge/internal/runtime/executor.go:270-307 | under the connection's lock at most one issue is made per change beyond those whose answer was lost, and exactly that many once the row exists |
| IssueCreation.OverlapCreatesTwo | bridge/internal/runtime/executor.go:275-293 | without the lock two runs can create two issues, none lost |
| IssueCompletion.CompleteIssue | bridge/internal/runtime/executor.go:309-458 | the method lists, calls, marks, notes and closes in the order specified and stops where it should; its close calls are the issues of the old rows in scope, all of them if it finishes |
| IssueCompletion.RunCloses | bridge/internal/runtime/executor.go:340-458 | a finishing run that closes makes a close call for exactly the positive issue numbers of the old rows in scope; one that stops at a failed close has closed those up to it, in ascending order; notes likewise |
| IssueCompletion.RunEffect | bridge/internal/runtime/executor.go:386-399 | a run calls the status of active projections only, each once, and changes only theirs |
| IssueCompletion.MarkedRunsRest | bridge/internal/runtime/executor.go:386-399 | once all status calls have succeeded, and so after every success, no listed projection is active |
| IssueCompletion.TerminalNeverCalled | bridge/internal/runtime/executor.go:340-399 | across failed and repeated runs and new publications a terminal projection keeps its status and gets no status call |
| IssueCompletion.ClosesIffActive | bridge/internal/runtime/executor.go:368-384 | a successful run makes a close call for exactly the issues of the old rows in scope if it found an active projection, and for none otherwise |
| IssueCompletion.MarkedOnceThenSilent | bridge/internal/runtime/executor.go:368-384 | after a run has marked its projections, every later run for the change makes no provider call until a new projection appears |
| FlowVersions.Store.SaveFlowVersion | bridge/internal/store/repository.go:451-550 | retires the live version, stores the new one and activates it in one step, accepts the identical version again and refuses a changed one |
| FlowVersions.Store.ActivateHookRoute | bridge/internal/store/hooks.go:116-136 | activates the version's route and disables all others of the Flow |
| FlowVersions.Store.Publish | bridge/internal/flow/service.go:168-211 | undisturbed, a publication ends with exactly its new version listed, and a failed activation with the Flow paused and nothing listed |
| FlowVersions.Store.Pause | bridge/internal/flow/service.go:213-240 | pauses exactly a published Flow with a known version, leaving nothing listed |
| FlowVersions.Store.Archive | bridge/internal/flow/service.go:242-260 | archives exactly a published or paused Flow, leaving nothing listed |
| FlowVersions.PublishAlone | bridge/internal/flow/service.go:168-211 | an undisturbed publication stores the next version, retires the others, lists it, or ends paused with nothing listed if activation fails; an archived Flow refuses it |
| FlowVersions.PauseAlone | bridge/internal/flow/service.go:213-240 | an undisturbed pause disables the route of the version asked for, by default the active one, and pauses a published Flow; any other changes nothing |
| FlowVersions.ArchiveAlone | bridge/internal/flow/service.go:242-260 | an undisturbed archiving disables the active route and archives a published or paused Flow; any other changes nothing |
| FlowVersions.RunInv | bridge/internal/store/repository.go:617-645 | in every interleaving version numbers stay 1 to n, exactly the active version is live, at most one route is active and ingress lists no other version |
| FlowVersions.ListedIsActive | bridge/internal/store/runtime.go:942-968 | ingress lists the active version exactly if the Flow is published and that version's route is active, and nothing else |
| FlowVersions.GraphsAreImmutable | bridge/internal/store/repository.go:497-518 | a stored version's graph is never changed or removed |
| FlowVersions.ArchivedIsFinal | bridge/internal/flow/service.go:168-260 | an archived Flow stays archived in all continuations exactly if every request under way is harmless |
| FlowVersions.ActivationLists | bridge/internal/store/hooks.go:112-136 | after a publication activates its route its version is listed exactly if it is still the active one of a published Flow, and otherwise nothing is |
| FlowVersions.OverlappingPublishesUnlist | bridge/internal/flow/service.go:196-208 | a run of two successful publications that leaves a published Flow with nothing listed |
| IdentityKeys.DecodeEncode | bridge/internal/runtime/ingress.go:603-610 | the length-prefixed encoding reads back as the list that was encoded |
| IdentityKeys.EncodeInjective | bridge/internal/runtime/ingress.go:603-610 | so it determines the whole list of strings |
| IdentityKeys.Digest | bridge/internal/runtime/ingress.go:603-610 | the loop hashes exactly that encoding |
| IdentityKeys.KeyDeterminesParts | bridge/internal/runtime/ingress.go:595-597 | equal idempotency keys mean equal route, version and action |
| IdentityKeys.CorrelationDeterminesParts | bridge/internal/runtime/ingress.go:599-601 | equal correlation identifiers mean equal workspace, connection, Flow and action |
| IdentityKeys.HashedValues | bridge/internal/runtime/ingress.go:595-601 | which values, in which order, the two keys hash |
| IdentityKeys.IdentityText | bridge/internal/runtime/ingress.go:559-578 | the text of the identity in each case of the payload |
| IdentityKeys.IdentityClashes | bridge/internal/runtime/ingress.go:559-578 | two action identities are equal exactly if the actions are, or one publication is the other with its change and SHA split at another colon |
| IdentityKeys.PublicationsDistinct | bridge/internal/runtime/ingress.go:573-575 | with colon-free SHAs publication identities determine change and SHA |
| ArchiveFanOut.ParseLifecycleTrailer | bridge/internal/runtime/ingress.go:515-546 | reads each field from its last line and accepts exactly the trailers that are complete and consistent |
| ArchiveFanOut.ParseRules | bridge/internal/runtime/ingress.go:515-546 | a message has a trailer if and only if its last lines for the four fields say it and it is complete and consistent |
| ArchiveFanOut.LifecycleTrailers | bridge/internal/runtime/ingress.go:468-485 | yields, once per event and change, what the last message saying it says, and nothing else |
| ArchiveFanOut.ArchivedTrailers | bridge/internal/runtime/ingress.go:491-502 | nothing unless the push is to main and not a deletion, and then exactly the archived ones |
| ArchiveFanOut.ArchivesRule | bridge/internal/runtime/ingress.go:491-502 | a push archives exactly if it is to `refs/heads/main` and its last commit is not all zeros |
| ArchiveFanOut.FanOutIsExact | bridge/internal/runtime/ingress.go:406-443 | one payload per archived change, with pairwise distinct action and delivery identities |
| Redelivery.AcceptDeliveries | bridge/internal/runtime/ingress.go:150-203 | the loop counts accepted and duplicate items and stops at an error as specified |
| Redelivery.IngestedAll | bridge/internal/runtime/ingress.go:192-201 | a loop that gets through counts every item once and leaves an execution for each |
| Redelivery.RedeliveryAcceptsNothing | bridge/internal/runtime/ingress.go:192-201 | delivering the same keys again accepts 0, reports every earlier item as duplicate and adds no execution and no job |
| Redelivery.SameItemKeys | bridge/internal/runtime/ingress.go:150-191 | the same routes and payloads make the same keys, whatever identifiers are made up and in whatever order the payloads come |
| Redelivery.ItemAt | bridge/internal/runtime/ingress.go:150-191 | the items are every payload for every route, route by route, and each holds its route's and payload's fields |
| Redelivery.EnvelopeRedelivered | bridge/internal/runtime/ingress.go:95-208 | so redelivering an envelope with unchanged routes accepts 0, reports every earlier item as duplicate and adds no execution and no job |
| Redelivery.PushFansOutAlike | bridge/internal/runtime/ingress.go:406-443 | and a push makes the same payloads each time |
| Redelivery.PushPayloadAt | bridge/internal/runtime/ingress.go:406-443 | in which each payload carries its trailer's change in its action and its delivery identifier |
| EnvFile.LoadDotEnv | bridge/config.go:272-306 | each key keeps its environment value if it has one, and otherwise gets the first non-empty value in the file |
| EnvFile.EntryText | bridge/config.go:280-301 | a line sets a key to a value exactly if, comments aside, the text before its first equals sign trims to that key and the text after it, trimmed and without a matching pair of quotes, is that value |
| EnvFile.RewriteEnvFile | bridge/admin.go:633-676 | replaces, comments out or keeps each line and appends exactly the updates no line took |
| EnvFile.RewrittenText | bridge/admin.go:646-667 | a line of a removed key stays as a comment, one of an updated key assigns it anew, and every other line stays |
| EnvFile.QuotedText | bridge/admin.go:622-627 | a value with a comma, number sign or double quote is written in double quotes, its own escaped, any other as it is |
| EnvFile.ReadBackExact | bridge/admin.go:622-627 | a value written and read back is itself exactly if it has no double quote and is either quoted by the writer or trimmed and not wrapped in quotes |
| EnvFile.RewrittenFileValues | bridge/admin.go:633-676 | reading the rewritten file gives an updated key its value as read back, a removed key nothing and every other key its old value |
| EnvFile.EnvRoundTrip | bridge/admin.go:622-676 | an updated key has its value again exactly if the value is faithful |
| EnvFile.LineBreaksAreLost | bridge/config.go:280-304 | no file gives a key a value with a line break |
| ProjectMap.ParseProjectMap | bridge/config.go:204-223 | parses as specified, failing at a malformed item or a repeated path |
| ProjectMap.PrintParse | bridge/admin.go:586-601 | the printed map of clean paths and identifiers parses back to itself, and fails exactly if an identifier is blank |
| ProjectMap.AppliedMapReturns | bridge/admin.go:586-608 | printing, writing, reading and parsing together give back the same project map, unless it has one entry and that is wrapped in single quotes |
| Onboarding.Service.Onboard | bridge/internal/controlplane/connection.go:190-438 | the method does the lookups, provider calls and checkpoints in the order specified and ends where it should |
| Onboarding.Service.EnsureTargetProject | bridge/internal/controlplane/connection.go:465-513 | takes the requested, the checkpointed or a newly created project, and refuses a taken title |
| Onboarding.StoredStepsAreNotCalled | bridge/internal/controlplane/connection.go:543-556 | across any number of runs stopped anywhere, a provider step whose checkpoint is stored is never called again |
| Onboarding.SuccessIsProvisioned | bridge/internal/controlplane/connection.go:314-414 | a successful run leaves both label, workspace-repository, project-resource and hook-plan checkpoints stored |
| Onboarding.SuccessDoes | bridge/internal/controlplane/connection.go:190-438 | it has linked the operation to the project asked for, recorded or created, recorded every provider step's answer, and called exactly the steps not recorded before, in order |
| Onboarding.OneProjectAtMost | bridge/internal/controlplane/connection.go:481-509 | wherever runs stop, at most one target project is created, plus one for each time the title becomes free |
| Onboarding.NoMoreProjectsDecided | bridge/internal/controlplane/connection.go:465-509 | no run ever creates another project exactly if the operation has its target from the request, its checkpoint or its connection |
| Onboarding.FreedTitleMakesTwo | bridge/internal/controlplane/connection.go:481-497 | a lost answer and a freed title do make two |
| Onboarding.StopOrphans | bridge/internal/controlplane/connection.go:498-509 | a fresh operation that stops between creating the project and its checkpoint leaves a taken title that nothing records |
| Onboarding.OrphanBlocksForever | bridge/internal/controlplane/connection.go:490-497 | and then no later run with the same request succeeds until the title becomes free |
| Onboarding.SmoothRunSucceeds | bridge/internal/controlplane/connection.go:190-438 | for every request, a run in which everything answers succeeds exactly if the operation is linked, or its source is bound to the expected project, or it is unbound and the project asked for is free, recorded or still to be created under a free title |

## Left out

- HTTP handlers, sessions, JSON, CSRF and audit records: plumbing; only the guards of retry, repair, replay and
  attention are kept, as protocol steps.
- GitLab and Multica clients, credentials, signatures, vaults, SHA-256 and random identifiers: foreign calls are
  answers, hashes and identifiers are parameters.
- Field-level parsing, mapping, filtering and model checks, and the texts of diagnostics: uninterpreted functions of
  node, input or edge.
- Validation.Validate: does not model the list of diagnostics, only whether it is empty.
- RuntimeStore.Store.ClaimNextJob: does not model that times are compared as RFC 3339 text, in which fractions of
  a second do not sort like times; the clock is a number.
- RuntimeStore.Store.AcceptInboundEvent: does not model filling in blank identifiers and times, nor caller-chosen job
  status, lease and attempt count, which no caller sets.
- RuntimeStore.Store.CreateFlowExecutionAndEnqueue: does not model the Flow and version tables; one flag says whether
  they are found.
- JobProtocol.NothingIsLost: does not model `EnqueueJob` and `CreateFlowExecution` on their own, which no request
  handler calls, nor store errors.
- Projections.ListCorrelations: does not model the order of the rows.
- IssueCompletion.CompleteIssue: does not model how status and reason are chosen from the payload, nor the output map.
- FlowVersions.RunInv: does not model several connections or behaviours of one Flow, nor disabled connections; a Flow
  has one route per version.
- FlowVersions.Store.SaveFlowVersion: does not model versions saved other than as published, which no caller does.
- FlowVersions.ListedIsActive: does not model disabled connections.
- Redelivery.AcceptDeliveries: does not model looking routes up, verifying secrets, matching filters, nor the count of
  ignored routes; the routes that pass are given.
- ArchiveFanOut.ArchivedTrailers: does not model the payload clone around each trailer, nor label-driven abandonment.
- EnvFile.RewriteEnvFile: does not model the sorted order of appended keys, the atomic file write, or the wording of
  the comment left on a removed line.
- Onboarding.Service.Onboard: does not model managed resources, readiness probing and operation status, which no
  checkpoint depends on.
- Onboarding.Service.EnsureTargetProject: does not model the search for the title, only whether it finds a project.
- Payload redaction, Hook setup and token rotation, session and account tables, the legacy webhook handler: simpler
  protocols of the same kind, or no part in the results.
