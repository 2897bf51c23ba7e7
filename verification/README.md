# Remora: strict determinism, verified

Remora executes a committed transaction sequence on many machines. A primary gives every
access to a shared object a version; proxies run transactions in parallel, gated only by
those versions, and fetch objects from each other. The claim the system is built for is
strict determinism: the outcome is that of executing the commit sequence serially. This
project models the code that carries that claim and proves it, for every number of
proxies and pool workers, every routing and every interleaving of steps.

The parts, in reading order:

- `Types`, `Protocol`: objects, versions, transactions, and the execution protocol as a
  state machine over thirteen atomic steps (start, register, wait, check, execute, notify,
  serve, answer, accept, panic, commit, close). Any step of any task may come next;
  messages arrive in any order.
- `ProtocolInvariant`, `ProtocolSteps`, `ProtocolKeeps`: the inductive invariant. The
  primary's messages are described by what they promise about a serial run (`Explains`),
  so the protocol's proofs never unfold the assigner.
- `Progress`: no deadlock, no livelock, and exactly when a message handler panics.
- `HandleLifecycle`: producer and consumer share a handle, one waiter and one notifier,
  when map entries come and go.
- `SerialExecution`, `Determinism`: version assignment over a commit sequence, serial
  execution with the version check, and the determinism theorems.
- `Containment`: what a message handler that dies can stop. Which transactions complete in
  some run, and which in every run, is decided by the commit sequence, its verdicts and
  the routing; the other proxies carry on.
- `DependencyController`, `Forwarder`, `PrimaryPool`, `Scheduler`: the primary and the
  dependency controller, imperative, with the pool of blocking workers and the batch
  scheduler.
- `System`: primary and proxies together, the proxies starting transactions as they are
  forwarded; the end-to-end theorem.
- `Executor`, `FakeExecutor`, `TpccTransactions`, `TpccExecutor`, `TpccInitial`,
  `TpccConsistency`: the executors discharge the protocol's abstraction of execution, and
  TPC-C consistency holds in what the proxies hold at the end of a distributed run.
- `Framing`, `MockConsensus`: the frame reader and writer, and the batching loop.
- `OneshotController`, `RemoteVerification`: the rendezvous for stateless verification
  results, on one proxy and between two.

`dafny verify dfyconfig.toml` checks the whole project. Every lemma carries
`{:induction false}`: each induction is written out.

## What is assumed

- Transactions are identified by their position in the commit sequence, so digests are
  distinct. All inputs are shared objects.
- The inputs of a transaction are the keys of its map of shared objects
  (`src/executor/api.rs:110`), in the map's order, so none is repeated. The executors'
  own lists of inputs may have another order and repetitions.
- A state request between proxies asks for one object, as the proxies send them.
- Verification is a verdict attached to each transaction. Most theorems hold for any
  verdicts. With a failed verification a fetched object may not exist at the requested
  version: then the reply is empty, the controller rejects the empty list and the
  requester's message handler panics. `Determinism.MaximalRuns` gives the exact condition
  on the verdicts, the objects shared and the routing under which this happens,
  `Determinism.CompletionCanFail` a commit sequence for which it does, and
  `Containment.CompletesInEveryRun` exactly which transactions are then at risk.
- For the end-to-end theorems, the verdict of a transaction that is verified on another
  proxy arrives, which means that the reply is handled after the waiting task has
  registered. The code does not order the two: `RemoteVerification.RemoteTaskFinishes`
  shows that otherwise the task waits for ever, and with it its successors.
- TPC-C transactions name existing items. Items are read but not declared, so no check
  sees them.

Where code and documentation disagree the model follows the code:
`docs/architecture.md` says the synthetic executor makes no state changes, while
`src/executor/fake.rs` replaces every input by a coin of value 10 at the next version.

## Model

| member | source | states |
|---|---|---|
| ProtocolKeeps.StartKeeps | src/proxy/core.rs:213-248 | Scheduling a transaction and sending its state requests keeps the invariant: nothing already registered, signalled or stored is disturbed |
| ProtocolKeeps.OpenRoleIsSafe | src/executor/versioned_dependency_controller.rs:49-63 | A side that has not looked up its version yet finds the very handle the other side created, or creates the only one that version will ever have |
| ProtocolKeeps.RegisterPriorKeeps | src/proxy/core.rs:253-275 | Obtaining the handle of a required version keeps the invariant |
| ProtocolKeeps.RegisterNextKeeps | src/executor/versioned_dependency_controller.rs:91-98 | Obtaining the handle of the version to be produced keeps the invariant |
| ProtocolKeeps.OtherConsumer | src/proxy/core.rs:342-344 | A permit that one waiter consumes is not one that any other slot of any transaction still needs |
| ProtocolKeeps.WaitKeeps | src/proxy/core.rs:342-344 | Consuming a notification loses no other notification |
| ProtocolKeeps.NotifyHandle | src/proxy/core.rs:389-391 | A notification under a version's handle comes from the one transaction that produces the version |
| ProtocolKeeps.NotifyKeeps | src/proxy/core.rs:389-391 | Telling the successors keeps the invariant |
| ProtocolKeeps.ServeKeeps | src/proxy/core.rs:531-550 | Registering another proxy's state request with the owner's controller keeps the invariant |
| ProtocolKeeps.AnswerIsRight | src/proxy/core.rs:554-586 | When an owner answers, its store holds exactly the requested version with the serial content if the serial run executes the producer, and does not hold that version otherwise |
| ProtocolKeeps.AnswerKeeps | src/proxy/core.rs:544-592 | Waiting, removing the entry, reading and replying keeps the invariant |
| ProtocolKeeps.ReplyIsForWaiter | src/proxy/core.rs:491-497 | Mocking a reply as a transaction from the version before addresses exactly the handle the requester waits for |
| ProtocolKeeps.AcceptKeeps | src/proxy/core.rs:483-498 | Taking a non-empty reply keeps the invariant |
| ProtocolKeeps.CommitAdvancesStore | src/proxy/core.rs:499-503 | A fetched object never overwrites something newer in the requester's store |
| ProtocolKeeps.CommitKeeps | src/proxy/core.rs:499-503 | Committing a fetched object without waiting for prior dependencies keeps the invariant |
| ProtocolKeeps.CloseKeeps | src/proxy/core.rs:504-507 | Notifying the requester's task after the fetch keeps the invariant |
| ProtocolKeeps.PanicKeeps | src/executor/versioned_dependency_controller.rs:67-74 | A message handler that dies on an empty reply leaves the invariant of all other tasks intact |
| ProtocolKeeps.CheckTakesRoles | src/executor/versioned_dependency_controller.rs:103-109 | When a task removes the entries it waited on, both sides of each entry already hold the handle |
| ProtocolKeeps.CheckIsRight | src/proxy/core.rs:353-367 | The check before execution passes exactly for the transactions that the serial run executes |
| ProtocolKeeps.CheckKeeps | src/proxy/core.rs:345-367 | Removing the entries and checking keeps the invariant |
| ProtocolKeeps.ExecuteIsRight | src/proxy/core.rs:369-381 | An executing transaction reads the serial contents and writes the serial outputs |
| ProtocolKeeps.ExecuteAdvancesStore | src/proxy/core.rs:369-381 | Execution never replaces an object by an older version |
| ProtocolKeeps.ReachableKeeps | src/proxy/core.rs:277-594 | Every state reachable by any interleaving of steps on any number of proxies has the invariant |
| ProtocolSteps.FinishesInOrder | src/proxy/core.rs:342-391 | Along each object transactions finish in commit order, though they run in parallel on different proxies |
| ProtocolSteps.StoredBeforeFinish | src/proxy/core.rs:342-372 | Until a transaction finishes, no store anywhere holds its objects beyond the versions it requires, and a stored object at the required version is the serial one |
| ProtocolSteps.ReadyExactlyWhenStored | src/proxy/core.rs:342-372 | After the waits the required version is in the local store exactly when the serial run has it |
| ProtocolInvariant.VersionsIncrease | src/primary/shared_obj_txn_forwarder.rs:472-524 | Versions of one object strictly increase along the transactions touching it |
| ProtocolInvariant.ConsumerIsUnique | src/primary/shared_obj_txn_forwarder.rs:490-507 | An object version has at most one consumer |
| ProtocolInvariant.ProducerIsPrevious | src/primary/shared_obj_txn_forwarder.rs:490-513 | An object version has at most one producer, the transaction just before its consumer on that object |
| Progress.LocalWaitFires | src/proxy/core.rs:342-391 | A task whose local predecessor is complete finds its notification pending: none is lost |
| Progress.RequestMoves | src/proxy/core.rs:483-594 | A state request whose producer is complete always has a next step |
| Progress.TaskMoves | src/proxy/core.rs:226-391 | A transaction can take a step as soon as those it waits for are complete and the handlers at both ends of its fetches live, whatever happened elsewhere |
| Progress.EarliestMoves | src/proxy/core.rs:226-391 | The earliest incomplete transaction can always take a step |
| Progress.NoDeadlock | src/proxy/core.rs:213-594 | Unless a message handler has panicked, the proxies stop only when every transaction is complete |
| Progress.StepUsesUp | src/proxy/core.rs:213-594 | Every step uses up at least one of finitely many possible steps |
| Progress.RunsAreFinite | src/proxy/core.rs:213-594 | No run is longer than the number of distinct steps, so there is no livelock |
| Progress.NeverFinishes | src/proxy/core.rs:491-497 | A transaction that must fetch from a skipped producer finishes in no run |
| Progress.CompletesExactlyWhenFetchable | src/proxy/core.rs:483-594 | Every maximal run completes everything if and only if nobody has to fetch from a skipped producer |
| HandleLifecycle.BothSidesShareHandle | src/executor/versioned_dependency_controller.rs:49-63 | Producer and consumer of a version obtain the same handle whichever registers first, locally, at an owner and at a requester |
| HandleLifecycle.OneWaiterOneNotifier | src/executor/versioned_dependency_controller.rs:79-101 | No two slots wait on the same handle and no two slots notify it |
| HandleLifecycle.RunKeepsEntries | src/executor/versioned_dependency_controller.rs:103-109 | In every reachable state a handle's map entry is present exactly until its consumer is served |
| HandleLifecycle.EntriesAtRest | src/executor/versioned_dependency_controller.rs:79-109 | When everything is complete the maps hold exactly one entry per touched object: its latest version, at the proxy of its last transaction |
| HandleLifecycle.WaitsAreInOrder | src/proxy/core.rs:342-344 | In every run a task passes its waits in the order of its objects |
| SerialExecution.AssignedVersion | src/primary/shared_obj_txn_forwarder.rs:490-513 | The assigned version is one above the highest required version and above the initial one |
| SerialExecution.VersionFromLastToucher | src/primary/shared_obj_txn_forwarder.rs:472-524 | The assigner's current version of an object is what its last toucher was assigned, or the initial version |
| SerialExecution.FirstVersion | src/primary/shared_obj_txn_forwarder.rs:490-507 | The first transaction on an object requires version 2 and leaves at least 3 |
| SerialExecution.VersionChain | src/primary/shared_obj_txn_forwarder.rs:472-524 | Over any commit sequence each object's versions strictly increase, and a required version is the output of the immediately preceding transaction on the object and of no other |
| SerialExecution.SerialStoreAt | src/executor/fake.rs:370-451 | The serial store holds an object at its last toucher's version exactly if that transaction is executed, and below that version if it is skipped |
| SerialExecution.SkipsCascade | src/executor/fake.rs:419-451 | Once a transaction is skipped, so is every later one that shares an object with it |
| SerialExecution.SkippedLocally | src/executor/fake.rs:419-451 | A transaction is skipped if and only if its own verification fails, an object it touches first is missing, or the last toucher of one of its objects is skipped |
| SerialExecution.SkippedIsDoomed | src/proxy/core.rs:353-367 | The serial run skips exactly the transactions connected by sharing, in commit order, to one that fails its verification or declares a missing object; versions and executions do not enter |
| SerialExecution.DescribedIsExplained | src/primary/shared_obj_txn_forwarder.rs:472-524 | The versions of the assigner and the owners of the ownership history make every promise the protocol relies on |
| Determinism.ExactVersions | src/proxy/core.rs:342-372 | In every reachable state a transaction past its waits finds each object at exactly the assigned version with the serial content if the serial run has it ready, and never a later version |
| Determinism.VerifiedCheckSucceeds | src/executor/fake.rs:419-451 | When all verifications succeed, the version check of every transaction succeeds in every run |
| Determinism.SameTransactionsExecute | src/proxy/core.rs:353-391 | Every run executes and skips the same transactions as the serial run |
| Determinism.RepliesAreExact | src/proxy/core.rs:554-586 | A reply in flight carries exactly the requested version with the serial content, and is empty exactly when the serial run skips the producer |
| Determinism.SerialStoreIsLastWrite | src/executor/fake.rs:396-416 | The serial run leaves in each object what its last executed transaction wrote |
| Determinism.FinalStateIsSerial | src/proxy/core.rs:277-594 | On any number of proxies, under any routing and interleaving, once the last transaction on an object is complete, the object is, at the proxy that last wrote it, as the serial run leaves it |
| Determinism.MaximalRuns | src/proxy/core.rs:483-594 | A maximal run completes every transaction if and only if no transaction is routed away from a doomed last toucher of one of its objects, a condition on verdicts, sharing and routing alone |
| Determinism.DoomedFetchNeverCompletes | src/executor/versioned_dependency_controller.rs:67-74 | A transaction that must fetch from a doomed one is complete in no reachable state |
| Determinism.CompletionCanFail | src/proxy/core.rs:491-497 | The property fails: of two transactions on one object, the first failing its verification and the second on another proxy, the second completes in no run |
| Determinism.VerifiedWorkloadsComplete | src/proxy/core.rs:213-594 | When all verifications succeed, every maximal run completes every transaction |
| Determinism.SingleProxyCompletes | src/proxy/core.rs:315-391 | On a single proxy every maximal run completes every transaction, whatever the verification verdicts |
| Containment.CompletesInSomeRun | src/proxy/core.rs:483-594 | A transaction is complete in some run if and only if neither it nor anything it waits for must fetch from a doomed transaction |
| Containment.CompletesInEveryRun | src/proxy/core.rs:483-594 | A transaction is complete at the end of every maximal run if and only if no fetch it waits for can be stopped: no panic can kill a handler at either end of the fetch without waiting for the fetching transaction |
| Containment.PanicIsContained | src/proxy/core.rs:491-497 | However many handlers died, when nothing can move a transaction is complete unless a fetch it waits for has a dead handler at one of its ends |
| Containment.ContainedObjectIsSerial | src/proxy/core.rs:277-594 | At the end of every maximal run, panics or not, an object whose last transaction cannot be stopped is as the serial run leaves it |
| Containment.RaceDecides | src/proxy/core.rs:491-507 | The two conditions differ: a commit sequence with a transaction that completes in some runs and is stopped in others |
| DependencyController.VersionedDependencyController.constructor | src/executor/versioned_dependency_controller.rs:33-40 | A new controller is empty |
| DependencyController.VersionedDependencyController.EntryHelper | src/executor/versioned_dependency_controller.rs:49-63 | The entry's handle if there is one, otherwise a new one that is now the entry |
| DependencyController.VersionedDependencyController.CalculateNextVersion | src/executor/versioned_dependency_controller.rs:67-74 | One above the maximum; there is none exactly for the empty list |
| DependencyController.VersionedDependencyController.GetPriorDependencyAndUpdate | src/executor/versioned_dependency_controller.rs:79-101 | The map, the handles to wait for and the handles to signal after the call, for every combination of the two flags; an empty list changes nothing and yields nothing |
| DependencyController.VersionedDependencyController.RemoveDependency | src/executor/versioned_dependency_controller.rs:103-109 | Exactly the listed entries disappear |
| DependencyController.CallHandsOut | src/executor/versioned_dependency_controller.rs:91-100 | Each object is waited for through the handle of its required version unless that is initial or ignored, in order, and signalled through the handle of the next version |
| DependencyController.CallAddsExactly | src/executor/versioned_dependency_controller.rs:79-101 | After a call the entries are those from before, one per required version above the initial one unless priors are ignored, and one per next version unless that is ignored |
| DependencyController.CallIsRegisteringSteps | src/proxy/core.rs:253-275 | One call has exactly the effect of the protocol's registering steps one after another and hands out the same handles |
| DependencyController.ReplyCallIsAccept | src/proxy/core.rs:491-497 | The call made for a fetched object has exactly the effect of the protocol's accepting step: no handle to wait for, the fetched version's handle to notify, and no entry for the version before |
| DependencyController.RequestCallIsServe | src/proxy/core.rs:544-550 | The call made for a state request has exactly the effect of the protocol's serving step: the requested version's handle to wait for, and none to notify |
| DependencyController.ControllerAgreesWithAssigner | src/executor/versioned_dependency_controller.rs:67-74 | The controller and the assigner compute the same next version |
| Forwarder.VersionAssignmentTask.AssignSharedObjectVersions | src/primary/shared_obj_txn_forwarder.rs:472-524 | Returns each object with its version before the call and moves all of them to one common next version |
| Forwarder.VersionAssignmentTask.ProcessVersionAssignments | src/primary/shared_obj_txn_forwarder.rs:445-463 | Over a commit sequence each transaction gets the versions of the prefix before it |
| Forwarder.AssignedListIsRequired | src/primary/shared_obj_txn_forwarder.rs:517-523 | The list attached to a transaction is the one its proxy's task passes to the controller |
| Forwarder.AssignedListsOnce | src/primary/shared_obj_txn_forwarder.rs:477-523 | The attached list names each object once, at the version the serial run requires, whatever the order of the executor's own list |
| Forwarder.OwnershipMap.GetMissingStatesForTransaction | src/primary/shared_obj_txn_forwarder.rs:859-912 | The reported owners and the ownership map after the in-place loop |
| Forwarder.LoopReports | src/primary/shared_obj_txn_forwarder.rs:887-900 | The loop reports each owner as it was before the call, although it edits the map as it goes |
| Forwarder.LoopMoves | src/primary/shared_obj_txn_forwarder.rs:900-903 | The loop moves exactly the required versions to the new version and the new proxy and leaves every other entry alone |
| Forwarder.OwnershipNextAgrees | src/primary/shared_obj_txn_forwarder.rs:874-882 | The ownership map and the assigner compute the same next version |
| Forwarder.OwnershipMap.GetProxyForSharedObjectsMostStates | src/primary/shared_obj_txn_forwarder.rs:801-855 | The chosen proxy holds at least as many required versions as any other, and ties go round by the transaction counter over the sorted list of all the best |
| Forwarder.OwnershipMap.BestHoldsMost | src/primary/shared_obj_txn_forwarder.rs:820-829 | A best proxy holds at least as many of the required versions, counted in the list, as any other |
| Forwarder.GenericWorkerPool.SendTask | src/executor/worker_pool.rs:130-139 | The task goes to the next worker in turn and every queue remains what round robin deals |
| Forwarder.GenericWorkerPool.Receive | src/executor/worker_pool.rs:122-127 | A worker receives its tasks in the order they were dealt |
| Forwarder.DealtInOrder | src/executor/worker_pool.rs:130-139 | Worker q gets exactly the tasks whose number is q modulo the number of workers, in increasing order |
| PrimaryPool.ForwardedInTurn | src/primary/shared_obj_txn_forwarder.rs:695-711 | A task past its waits directly follows the latest forwarded transaction on each of its objects |
| PrimaryPool.OwnershipAgreesWithHistory | src/primary/shared_obj_txn_forwarder.rs:859-912 | In every reachable state of the pool the ownership map has exactly one key per touched object, at its latest forwarded version, mapped to the producer's proxy |
| PrimaryPool.ReportedOwnersAreProducers | src/primary/shared_obj_txn_forwarder.rs:884-902 | Each reported owner is the proxy of the last earlier transaction on the object, and none is reported when that is the transaction's own proxy |
| PrimaryPool.EarliestTaskMoves | src/primary/shared_obj_txn_forwarder.rs:682-797 | The earliest unfinished task that was dealt is at the head of its worker's queue and can take a step |
| PrimaryPool.OneTaskPerWorker | src/executor/worker_pool.rs:124-139 | In every reachable state a worker has started a task only if it was dealt and all tasks dealt to that worker before are finished |
| PrimaryPool.StartsExactlyWhenFree | src/executor/worker_pool.rs:124-139 | A dealt task can start as soon as its own worker is free, whatever the other workers do |
| PrimaryPool.PoolDrains | src/executor/worker_pool.rs:122-139 | With any number of blocking workers the pool stops only when every task is dealt and forwarded |
| PrimaryPool.PoolRunsAreFinite | src/primary/shared_obj_txn_forwarder.rs:661-797 | No run of the pool is infinite |
| PrimaryPool.PrimaryEntriesAtRest | src/primary/shared_obj_txn_forwarder.rs:695-711 | When the pool has drained, the primary's dependency map has exactly one entry per touched object, at its latest version |
| System.MessagesAreTheJob | src/primary/shared_obj_txn_forwarder.rs:745-797 | Whenever a message is sent, whatever the interleaving, it holds the assigner's versions and the owners of the ownership history |
| System.StartedIsSent | src/primary/shared_obj_txn_forwarder.rs:747-791 | In every run the proxies have started only transactions that the pool has sent |
| System.SystemProjects | src/primary/shared_obj_txn_forwarder.rs:661-797 | With the pool still forwarding while proxies already work, the primary alone sees a run of the pool and the proxies alone a run of the protocol |
| System.SystemIsSerial | src/proxy/core.rs:213-594 | End to end, for any number of workers and proxies, any routing and any interleaving of primary and proxies: when the system stops everything has been forwarded, everything is complete exactly when nothing must be fetched from a skipped producer, and then each object is at its last writer's proxy as the serial run leaves it |
| System.SystemContainsPanics | src/proxy/core.rs:213-594 | When primary and proxies have stopped, every transaction that no panic can stop is complete, and every object whose last transaction is such a one is as the serial run leaves it |
| System.SystemComesToRest | src/proxy/core.rs:213-594 | No run of primary and proxies together is infinite |
| Scheduler.SparseGraphAgrees | src/primary/shared_obj_txn_forwarder.rs:297-321 | The graph of last accessors has the same connected components as the full relation of sharing an object |
| Scheduler.EdgeIsFromLastAccessor | src/primary/shared_obj_txn_forwarder.rs:297-321 | Two transactions have an edge exactly if they share an object that none between them touches |
| Scheduler.DependencyGraph.BuildDependencyGraph | src/primary/shared_obj_txn_forwarder.rs:297-321 | One node per transaction and an edge per object from its last accessor, no others |
| Scheduler.DependencyGraph.Search | src/primary/shared_obj_txn_forwarder.rs:330-345 | The depth-first search ends with exactly the component of its root and marks exactly that component visited |
| Scheduler.DependencyGraph.FindAllSubgraphs | src/primary/shared_obj_txn_forwarder.rs:323-349 | The components partition the nodes and each is closed and connected |
| Scheduler.ComponentsAreSharingClasses | src/primary/shared_obj_txn_forwarder.rs:297-349 | Two transactions are in one component exactly when a chain of shared objects connects them |
| Scheduler.SharersAreTogether | src/primary/shared_obj_txn_forwarder.rs:323-349 | Different components touch disjoint objects |
| Scheduler.HandleLargeSubgraphs | src/primary/shared_obj_txn_forwarder.rs:155-174 | Exactly the members of components of two or more transactions are planned, each component to the one proxy chosen for it |
| Scheduler.ScheduleBatch | src/primary/shared_obj_txn_forwarder.rs:93-174 | Transactions of a batch that share an object are planned for the proxy chosen for their component, only transactions that share an object are planned, and if the plan is installed before forwarding, in any commit sequence, no transaction of the batch is told to fetch what the batch produces |
| Scheduler.NoIntraBatchMigration | src/primary/shared_obj_txn_forwarder.rs:714-749 | If the plan is installed before forwarding, two transactions of the batch sharing an object are routed to the same proxy and no reported owner refers to a version produced within the batch, wherever the batch's transactions are in the commit sequence |
| Executor.ObjectStore.CommitNewObjects | src/executor/fake.rs:276-280 | All new objects are in the store, everything else is as it was, in whatever order they are inserted |
| Executor.ObjectStore.PreExecuteCheck | src/executor/fake.rs:419-451 | True exactly if every declared object is present, at its listed version if one is listed |
| Executor.CheckCountsFirst | src/executor/fake.rs:425-447 | An object that is not listed only has to be present; for a listed one the first version listed counts |
| Executor.NextVersion | src/executor/fake.rs:383-394 | One above the highest listed version, never below one above the initial version |
| Executor.CheckIsSerialMatch | src/executor/tpcc/executor.rs:700-734 | With the assigned versions listed in any order, the check over the executor's own list of inputs is the check of the serial run |
| Executor.ExecutorNextIsAssigned | src/executor/tpcc/executor.rs:662-673 | The executors and the assigner compute the same next version |
| Executor.ExecutedSameObjects | src/executor/fake.rs:396-407 | What an execution commits depends on which objects are declared, not on their order or repetition |
| Executor.ExecuteStepExecutes | src/proxy/core.rs:369-381 | The protocol's execution step is the executor's commit on the transaction's proxy and touches no other proxy's store |
| FakeExecutor.Execute | src/executor/fake.rs:370-417 | Every declared object becomes a coin of value 10 at the common next version, nothing else changes, and an unknown object means nothing is committed |
| FakeExecutor.CheckAndExecute | src/executor/fake.rs:370-451 | Check and execution together are one step of the serial run |
| TpccTransactions.AccessSet | src/executor/tpcc/transactions.rs:154-163 | The loop with the seen-set returns the deduplicated read and write sets |
| TpccTransactions.DedupKeepsFirsts | src/executor/tpcc/transactions.rs:159-162 | Deduplication loses nothing, repeats nothing and keeps the order of first occurrences |
| TpccTransactions.AccessesAreReads | src/executor/tpcc/transactions.rs:73-163 | Whatever is written is also read, and no object is declared twice |
| TpccTransactions.ReadSet | src/executor/tpcc/transactions.rs:74-116 | Warehouse, district, customer and the stock row of every order line, in order |
| TpccTransactions.WriteSet | src/executor/tpcc/transactions.rs:119-152 | The objects whose content the business logic may change, in order |
| TpccTransactions.OnlyWritesChange | src/executor/tpcc/transactions.rs:118-152 | The content of an object outside the write set is preserved |
| TpccTransactions.LineKeepsRange | src/executor/tpcc/executor.rs:542-546 | One order line keeps all quantities in 10..100 there if and only if it orders at most 91 |
| TpccTransactions.LineRestocks | src/executor/tpcc/executor.rs:542-546 | A line takes its quantity off the stock exactly when at least 10 remain, and otherwise leaves 91 more than that, for any stock and quantity |
| TpccTransactions.LineIsSubtraction | src/executor/tpcc/executor.rs:542-547 | Subtracting, or restocking by 91 first, is subtraction modulo 91 |
| TpccTransactions.LinesAreSubtraction | src/executor/tpcc/executor.rs:532-555 | Over all lines of an order the remaining quantity is what subtracting, modulo 91, the quantities of the lines that name the row leaves, and stays in 10..100 |
| TpccTransactions.OrderIsCounted | src/executor/tpcc/executor.rs:547-551 | An order adds to a stock row's counters the quantities, the number of lines and the number of remote lines that name the row |
| TpccTransactions.SameTotalSameQuantity | src/executor/tpcc/executor.rs:532-555 | Orders of the same total leave the same quantity whatever their lines and line order |
| TpccExecutor.GetObject | src/executor/tpcc/executor.rs:442-457 | Reading through the cache gives what the store holds, and the cache stays true to the store |
| TpccExecutor.OrderLine | src/executor/tpcc/executor.rs:533-551 | One line's new stock row, or nothing exactly if its item or row is unknown |
| TpccExecutor.OrderLines | src/executor/tpcc/executor.rs:532-555 | Every stock row of the order is updated once per line that names it, lines accumulating |
| TpccExecutor.ExecuteNewOrder | src/executor/tpcc/executor.rs:504-580 | Succeeds exactly if everything it reads is present, and then computes an update for exactly the write set |
| TpccExecutor.ExecutePayment | src/executor/tpcc/executor.rs:582-640 | Likewise for a payment |
| TpccExecutor.Execute | src/executor/tpcc/executor.rs:653-698 | Writes exactly the access set at the common next version, drops no computed update, preserves contents that were only read, and commits nothing if an object is unknown |
| TpccExecutor.CheckAndExecute | src/executor/tpcc/executor.rs:653-734 | Check and execution together are one step of the serial run, keep every row of its kind and every item present |
| TpccInitial.InitObjects | src/executor/tpcc/executor.rs:325-416 | The nested loops store exactly the rows of the scale, each with its initial content at the initial version |
| TpccInitial.InitialIsConsistent | src/executor/tpcc/constants.rs:130-167 | Whatever the random draws, the initial database is consistent, and its stock is in step when the drawn quantities are in range |
| TpccInitial.RunFromInitial | src/executor/tpcc/constants.rs:13-167 | After any run from the initial database: which rows there are, and what each holds in terms of the constants, the draws and the executed transactions that name it |
| TpccConsistency.PaymentPaysOnce | src/executor/tpcc/executor.rs:593-608 | A payment raises by its amount the total of any set of rows holding exactly one of its three rows |
| TpccConsistency.TransactionKeepsConsistency | src/executor/tpcc/executor.rs:504-640 | Every transaction keeps each warehouse total equal to the sum of its districts, each balance the negative of what was paid, and the ledger unchanged |
| TpccConsistency.RunIsConsistent | src/executor/tpcc/executor.rs:582-640 | The same over any run, whichever transactions are skipped |
| TpccConsistency.StockClosedForm | src/executor/tpcc/executor.rs:532-555 | Over any run each stock quantity stays in 10..100 and equals 10 + (q0 - 10 - ordered) mod 91, ordered being what the lines of the executed orders ask for |
| TpccConsistency.RowsGrowAsAsked | src/executor/tpcc/executor.rs:504-640 | Over any run every row has grown by exactly what the executed transactions that name it ask for: paid amounts in warehouses, districts and customers, payment counts, order numbers, ordered quantities, lines and remote lines in the stock; everything else in a row, taxes and discounts included, stays |
| TpccConsistency.PaymentsAreCounted | src/executor/tpcc/executor.rs:604-608 | A customer's payment count advances by exactly the number of executed PAYMENTs that name the customer |
| TpccConsistency.OrderNumbersHaveNoGaps | src/executor/tpcc/executor.rs:518-522 | A district's next order number advances by exactly the number of its executed NEW_ORDERs |
| TpccConsistency.SerialRunIsDatabaseRun | src/executor/tpcc/executor.rs:653-734 | The serial run of a commit sequence of TPC-C transactions is such a run, executing exactly those whose check passes |
| TpccConsistency.StoresAreTyped | src/executor/tpcc/executor.rs:459-467 | In every reachable state every row in every proxy's store decodes as the kind its identifier names |
| TpccConsistency.ExecutorFindsEverything | src/executor/tpcc/executor.rs:653-698 | Whenever a proxy executes a transaction, its store has every object and item the business logic reads, so the executor does not panic, and it commits what the protocol's execution step commits |
| TpccConsistency.DistributedRunIsConsistent | src/proxy/core.rs:277-594 | The database put together from the proxies after any complete distributed run has every row, is consistent with its ledger untouched, each row has grown by exactly what the transactions executed by the serial run ask for, and the stock has its closed form |
| Framing.HeaderRoundTrip | src/networking/worker.rs:154-155 | The four header bytes read back as the size modulo 2^32 |
| Framing.HeadersAreOrdered | src/networking/worker.rs:154-155 | The most significant byte comes first: headers are ordered byte by byte as the sizes they hold |
| Framing.ParseAppend | src/networking/worker.rs:84-107 | Bytes that arrive later never change what has been extracted |
| Framing.ChunkingDoesNotMatter | src/networking/worker.rs:76-107 | However the stream is split into reads, the same frames are extracted |
| Framing.RoundTrip | src/networking/worker.rs:76-163 | For any splitting the reader returns exactly the written payloads in order, if and only if every payload is at most 16 MiB |
| Framing.BetweenReads | src/networking/worker.rs:73-107 | Between reads the extracted frames are a prefix of the payloads and the buffer is a proper prefix of the next frame |
| Framing.NextFrame | src/networking/worker.rs:87-101 | Whether the frame at an offset is complete, incomplete or oversized, and what that means for the whole buffer |
| Framing.ExtractFrames | src/networking/worker.rs:84-102 | Fails exactly on an oversized frame; otherwise returns all complete frames and where the leftover begins |
| Framing.FrameReader.TakeRead | src/networking/worker.rs:77-107 | One read extracts the complete frames of leftover and new bytes together and keeps the rest |
| Framing.FrameReader.HandleReadStream | src/networking/worker.rs:66-128 | Over a whole stream the forwarded frames and the leftover are those of the joined bytes; on an oversized frame, the forwarded frames are those of the reads before the failing one |
| Framing.WriteBatch | src/networking/worker.rs:150-158 | The bytes of one write are the frames of the batch in order |
| Framing.HandleWriteStream | src/networking/worker.rs:131-164 | Batching the writes does not change the stream |
| MockConsensus.StepKeeps | src/primary/mock_consensus.rs:124-172 | Every event keeps the loop's invariant, the unguarded timer seal included |
| MockConsensus.RunKeeps | src/primary/mock_consensus.rs:124-172 | In every reachable state in-flight batches never exceed the maximum, sealed batches have 1 to batch-size transactions, sealed plus current is what was received in order, and sealed is committed plus in flight |
| MockConsensus.NothingIsLost | src/primary/mock_consensus.rs:124-172 | Each transaction is committed, in flight or in the current batch exactly as often as it was received |
| MockConsensus.TimerSeals | src/primary/mock_consensus.rs:149-160 | In every reachable state the timer turns a partial batch into one new batch, the last sealed, in flight, and leaves the current batch empty |
| MockConsensus.ReceiveSealsFull | src/primary/mock_consensus.rs:128-146 | A batch sealed on a receipt has exactly the batch size; otherwise the receipt only extends the current batch |
| MockConsensus.CommitMovesBatch | src/primary/mock_consensus.rs:164-171 | A delivered commit moves that one batch from those in flight to the committed ones |
| MockConsensus.StopsExactlyWhenGone | src/primary/mock_consensus.rs:149-170 | The loop stops exactly when the timer finds nothing to seal and the channel closed, or a commit is not delivered |
| MockConsensus.EverythingIsCommitted | src/primary/mock_consensus.rs:124-172 | From every reachable state of the running loop, the timer and the commits of the batches in flight commit every received transaction, exactly as often as it was received |
| MockConsensus.NeverStalls | src/primary/mock_consensus.rs:128-165 | When the loop cannot receive there is a batch to commit |
| MockConsensus.ReceivesWhilePipelining | src/primary/mock_consensus.rs:126-128 | A running loop receives exactly while fewer batches than the maximum are in flight |
| MockConsensus.MockConsensus.HandleEvent | src/primary/mock_consensus.rs:125-172 | The fields after each turn of the select loop |
| MockConsensus.MockConsensus.Run | src/primary/mock_consensus.rs:115-174 | Whatever events select picks, the loop's fields satisfy the invariant |
| OneshotController.OneshotDependencyController.SetLocalDependency | src/executor/oneshot_dependency_controller.rs:66-88 | The waiting sender if there is one, otherwise the sender of a new channel whose receiver is stored |
| OneshotController.OneshotDependencyController.GetDependency | src/executor/oneshot_dependency_controller.rs:107-133 | The stored receiver, or the receiver of a new channel whose sender is stored |
| OneshotController.OneshotDependencyController.TakeSignal | src/executor/oneshot_dependency_controller.rs:143-164 | The stored sender if there is one, leaving a stored receiver in place |
| OneshotController.OneshotDependencyController.SetRemoteDependency | src/executor/oneshot_dependency_controller.rs:47-51 | A new channel whose sender is stored |
| OneshotController.LocalRendezvous | src/executor/oneshot_dependency_controller.rs:66-138 | For any interleaving over any digests, once both sides of a digest have asked they hold the two ends of one channel that no other digest shares, and after the removal no entry is left |
| OneshotController.SetThenGet | src/executor/oneshot_dependency_controller.rs:66-133 | Without a stored sender, whatever else is stored, setting makes a new channel whose receiver the next to ask gets, and nothing stays behind |
| OneshotController.GetThenSet | src/executor/oneshot_dependency_controller.rs:66-133 | Asking first makes a new channel whose sender the next to set gets, and a second receiver is not handed out |
| OneshotController.OtherEndStays | src/executor/oneshot_dependency_controller.rs:107-164 | Taking one stored end leaves the other for whoever asks for it |
| OneshotController.ReceivedIsOwn | src/proxy/core.rs:324-326 | What a waiting task receives was sent for its own digest |
| OneshotController.NoResultIsLost | src/proxy/core.rs:189-201 | Once both sides have asked and the result is sent, the waiting task can finish |
| OneshotController.OneshotDependencyController.HandleStatelessReply | src/proxy/core.rs:510-529 | The stored sender, if any, is taken and the digest forgotten |
| RemoteVerification.DeliveredInTime | src/proxy/core.rs:160-171 | In every reachable state a result has reached a waiting task's channel if and only if the reply was handled after the registration |
| RemoteVerification.RemoteResult | src/proxy/core.rs:510-529 | For any interleaving over any digests, a remotely verified task has finished or can finish if and only if its reply was handled after its registration |
| RemoteVerification.RemoteTaskFinishes | src/proxy/core.rs:160-171 | When nothing more can happen to a digest, its task has finished and no entry is left, or its reply was handled too early, it never finishes and its entry stays |
| RemoteVerification.ReplyCanOvertake | src/proxy/core.rs:160-171 | A run in which the reply overtakes the registration although the request was sent first |

## Left out

- Integer widths: versions, counters and amounts are unbounded; the wrap-around of the original's `u64`, `u32`, `i32` and `i64` fields is not modelled, except for the 32-bit frame size.
- Atomicity: a task's registrations are separate steps, and so are its waits and its notifications; removing its dependency entries and the version check are one step, as are an owner's removal of an entry and its read, and the commit of one transaction's outputs. Forwarding a transaction is one step of the pool: the loop that reports and moves its entries in the ownership map one by one (`src/primary/shared_obj_txn_forwarder.rs:884-903`) is proved equal to that step in `Forwarder.LoopReports` and `Forwarder.LoopMoves`, but is not interleaved with other workers' loops.
- Owned objects: the versions of owned inputs are not tracked by the original, and the model has shared inputs only.
- State requests for several objects at once: the handler could serve them, but the proxies never send one.
- Stateless verification: in the protocol the verdict is part of the transaction; how and whether it arrives is modelled in `OneshotController` and `RemoteVerification`, not as steps of the protocol.
- Routing: the proxy of each transaction is an arbitrary function in the protocol and the pool; the floating-point score, its random tie-breaking, load accounting and the 24-bit index table are an arbitrary choice in `Scheduler.ScheduleBatch`.
- Order of components: the original sorts components by size before planning; the plan does not depend on it.
- Results: collection of execution results, metrics and load reports to the primary.
- Order totals: NEW_ORDER computes a total and discards it; the model reads the items but does not compute it.
- Object identifiers: the hash of the key string and the byte encoding of rows; identifiers are keys, rows are typed records with the fields that the logic touches.
- Networking, threads, core affinity, channel capacities and shutdown: only delivery and notification are modelled, as steps; a message to a proxy whose handler died is lost without blocking its sender.
- Delivery after extraction: frames of one read are deserialised and forwarded concurrently by the original.
- Executors for Sui Move and cryptographic verification, load generators, calibration, configuration and binaries.
